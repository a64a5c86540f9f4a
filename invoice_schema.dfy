/**
 * The request schemas of the invoice API (src/schemas/invoice.schema.ts) as
 * predicates and the list-query transform.
 *
 * Date-time fields arrive here already converted to timestamps; checking that
 * a string is an ISO 8601 date-time is not part of this model.
 */
module InvoiceSchemas {
  import opened Wrappers
  import opened Strings
  import opened Money

  /** The invoice status enum, in declaration order. */
  datatype InvoiceStatus = Draft | Issued | Canceled

  function StatusName(s: InvoiceStatus): (name: string)
    ensures |name| >= 5
  {
    match s
    case Draft => "draft"
    case Issued => "issued"
    case Canceled => "canceled"
  }

  /** `z.enum(['draft', 'issued', 'canceled'])`. */
  function ParseStatus(name: string): (r: Option<InvoiceStatus>)
    ensures r.Some? <==> name in {"draft", "issued", "canceled"}
    ensures r.Some? ==> StatusName(r.value) == name
    ensures forall s :: StatusName(s) == name ==> r == Some(s)
  {
    if name == "draft" then Some(Draft)
    else if name == "issued" then Some(Issued)
    else if name == "canceled" then Some(Canceled)
    else None
  }

  // ---------------------------------------------------------------------------
  // Bodies
  // ---------------------------------------------------------------------------

  /** `InvoiceItemInputSchema`. */
  predicate ValidItem(item: ItemInput) {
    |item.description| >= 1 && item.quantity > 0.0 && item.unitPrice >= 0.0
    && 0.0 <= item.taxRate <= 100.0
  }

  predicate AllValidItems(items: seq<ItemInput>) {
    forall i :: 0 <= i < |items| ==> ValidItem(items[i])
  }

  /** The body of a draft, as `InvoiceCreateInputSchema` outputs it. */
  datatype CreateInput = CreateInput(
    buyerName: string,
    buyerTaxId: Option<string>,
    buyerAddress: Option<string>,
    sellerName: string,
    sellerTaxId: Option<string>,
    dueDate: Option<int>,
    notes: Option<string>,
    items: seq<ItemInput>)

  /** `InvoiceCreateInputSchema`: both names non-empty, at least one item, every item valid. */
  predicate ValidCreate(c: CreateInput) {
    |c.buyerName| >= 1 && |c.sellerName| >= 1 && |c.items| >= 1 && AllValidItems(c.items)
  }

  /** The body of a draft update: every field may be left out. */
  datatype UpdateInput = UpdateInput(
    buyerName: Option<string>,
    buyerTaxId: Option<string>,
    buyerAddress: Option<string>,
    sellerName: Option<string>,
    sellerTaxId: Option<string>,
    dueDate: Option<int>,
    notes: Option<string>,
    items: Option<seq<ItemInput>>)

  /** `InvoiceUpdateInputSchema`: a given name is non-empty; a given item list may be empty. */
  predicate ValidUpdate(u: UpdateInput) {
    (u.buyerName.Some? ==> |u.buyerName.value| >= 1)
    && (u.sellerName.Some? ==> |u.sellerName.value| >= 1)
    && (u.items.Some? ==> AllValidItems(u.items.value))
  }

  /** `InvoiceCancelInputSchema`: at least one character, white space included. */
  predicate ValidCancel(reason: string) {
    |reason| >= 1
  }

  /** The update that sets every field of a create body. */
  function AsUpdate(c: CreateInput): (u: UpdateInput)
    ensures u.items == Some(c.items) && u.buyerName == Some(c.buyerName) && u.sellerName == Some(c.sellerName)
  {
    UpdateInput(Some(c.buyerName), c.buyerTaxId, c.buyerAddress, Some(c.sellerName),
                c.sellerTaxId, c.dueDate, c.notes, Some(c.items))
  }

  /** Every valid create body is also a valid update body; the converse fails on an empty item list. */
  lemma CreateIsValidUpdate(c: CreateInput)
    requires ValidCreate(c)
    ensures ValidUpdate(AsUpdate(c))
    ensures !ValidCreate(c.(items := [])) && ValidUpdate(AsUpdate(c.(items := [])))
  {
  }

  /** The empty update and the update that empties the item list both pass. */
  lemma UpdateFieldsOptional()
    ensures ValidUpdate(UpdateInput(None, None, None, None, None, None, None, None))
    ensures ValidUpdate(UpdateInput(None, None, None, None, None, None, None, Some([])))
    ensures !ValidUpdate(UpdateInput(Some(""), None, None, None, None, None, None, None))
  {
  }

  /** A reason made only of white space passes the schema although it trims to nothing. */
  lemma WhitespaceReasonPassesSchema(reason: string)
    requires |reason| >= 1 && forall i :: 0 <= i < |reason| ==> IsJsWhitespace(reason[i])
    ensures ValidCancel(reason) && Trim(reason) == []
  {
    TrimEmpty(reason);
  }

  /**
   * Valid items never produce a negative amount: every line amount is at
   * least zero.
   */
  lemma ValidItemNonNegative(item: ItemInput)
    requires ValidItem(item)
    ensures var r := CalculateLineItem(item);
      r.lineSubtotal >= 0.0 && r.lineTax >= 0.0 && r.lineTotal >= 0.0
  {
    var exact := item.quantity * item.unitPrice;
    assert exact >= 0.0;
    assert exact * (item.taxRate / 100.0) >= 0.0;
  }

  /** Invoices built from valid items have non-negative totals. */
  lemma ValidItemsNonNegativeTotals(items: seq<ItemInput>)
    requires AllValidItems(items)
    ensures var t := InvoiceTotals(items);
      t.subtotal >= 0.0 && t.taxTotal >= 0.0 && t.grandTotal >= 0.0
  {
    var lines := LinesOf(items);
    forall i | 0 <= i < |lines|
      ensures lines[i].lineSubtotal >= 0.0 && lines[i].lineTax >= 0.0
    {
      ValidItemNonNegative(items[i]);
    }
    SumsNonNegative(lines);
  }

  lemma {:induction false} SumsNonNegative(lines: seq<CalculatedItem>)
    requires forall i :: 0 <= i < |lines| ==> lines[i].lineSubtotal >= 0.0 && lines[i].lineTax >= 0.0
    ensures SumSubtotals(lines) >= 0.0 && SumTaxes(lines) >= 0.0
    decreases |lines|
  {
    if lines != [] {
      SumsNonNegative(lines[..|lines| - 1]);
    }
  }

  // ---------------------------------------------------------------------------
  // Query string
  // ---------------------------------------------------------------------------

  /** The longest run of digits at the front of `s`. */
  function DigitPrefix(s: string): (p: string)
    ensures |p| <= |s| && p == s[..|p|] && AllDigits(p)
    ensures |p| < |s| ==> !IsDigit(s[|p|])
  {
    if s != [] && IsDigit(s[0]) then [s[0]] + DigitPrefix(s[1..]) else []
  }

  /** What follows an optional leading sign. */
  function Unsigned(t: string): (u: string)
    ensures |u| <= |t|
  {
    if t != [] && (t[0] == '-' || t[0] == '+') then t[1..] else t
  }

  /**
   * JavaScript `parseInt(s, 10)`: leading white space is skipped, one sign is
   * read, then as many digits as follow; no digit at all gives NaN.
   */
  function JsParseInt(s: string): (r: IntParse)
    ensures r.Parsed? <==> DigitPrefix(Unsigned(TrimStart(s))) != []
    ensures r.Parsed? ==>
      var n := DigitsToNat(DigitPrefix(Unsigned(TrimStart(s)))) as int;
      r.value == (if TrimStart(s)[0] == '-' then -n else n)
  {
    var t := TrimStart(s);
    var digits := DigitPrefix(Unsigned(t));
    if digits == [] then NotANumber
    else if t[0] == '-' then Parsed(-(DigitsToNat(digits) as int))
    else Parsed(DigitsToNat(digits))
  }

  lemma {:induction false} DigitPrefixOfDigits(s: string)
    requires AllDigits(s)
    ensures DigitPrefix(s) == s
    decreases |s|
  {
    if s != [] {
      DigitPrefixOfDigits(s[1..]);
    }
  }

  /** `parseInt` reads back the decimal rendering of every natural number. */
  lemma JsParseIntOfRendering(n: nat)
    ensures JsParseInt(NatToString(n)) == Parsed(n)
  {
    var s := NatToString(n);
    assert !IsJsWhitespace(s[0]);
    assert TrimStart(s) == s;
    DigitPrefixOfDigits(s);
    NatToStringRoundTrip(n);
  }

  /** `parseInt` stops at the first non-digit. */
  lemma JsParseIntStopsAtNonDigit()
    ensures JsParseInt("12abc") == Parsed(12)
  {
    assert !IsJsWhitespace('1');
    assert TrimStart("12abc") == "12abc";
    assert Unsigned("12abc") == "12abc";
    assert DigitPrefix("abc") == [];
    assert DigitPrefix("2abc") == "2";
    assert DigitPrefix("12abc") == "12";
    assert DigitsToNat("12") == 12 by {
      assert "12"[..1] == "1" && "1"[..0] == [];
    }
  }

  /** `parseInt` gives NaN when there is no digit. */
  lemma JsParseIntNoDigit()
    ensures JsParseInt("abc") == NotANumber
  {
    assert !IsJsWhitespace('a');
    assert TrimStart("abc") == "abc";
  }

  /** The query string as received: every parameter is optional text. */
  datatype RawListQuery = RawListQuery(
    page: Option<string>,
    limit: Option<string>,
    status: Option<string>,
    q: Option<string>,
    buyerName: Option<string>,
    issueDateFrom: Option<int>,
    issueDateTo: Option<int>)

  /** The query after `InvoiceListQuerySchema`; page and limit may be NaN. */
  datatype ListQuery = ListQuery(
    page: IntParse,
    limit: IntParse,
    status: Option<InvoiceStatus>,
    q: Option<string>,
    buyerName: Option<string>,
    issueDateFrom: Option<int>,
    issueDateTo: Option<int>)

  /** `val ? parseInt(val, 10) : fallback`: a missing or empty value gives the fallback. */
  function NumberOr(val: Option<string>, fallback: int): (r: IntParse)
    ensures val.None? || val.value == [] ==> r == Parsed(fallback)
    ensures val.Some? && val.value != [] ==> r == JsParseInt(val.value)
  {
    if val.Some? && val.value != [] then JsParseInt(val.value) else Parsed(fallback)
  }

  /** `InvoiceListQuerySchema.parse`: fails only on a status outside the enum. */
  function ParseListQuery(raw: RawListQuery): (r: Option<ListQuery>)
    ensures r.Some? <==> raw.status.None? || raw.status.value in {"draft", "issued", "canceled"}
    ensures r.Some? ==> r.value.page == NumberOr(raw.page, 1) && r.value.limit == NumberOr(raw.limit, 10)
    ensures r.Some? && raw.status.Some? ==> r.value.status.Some? && StatusName(r.value.status.value) == raw.status.value
    ensures r.Some? && raw.status.None? ==> r.value.status.None?
    ensures r.Some? ==> r.value.q == raw.q && r.value.buyerName == raw.buyerName
    ensures r.Some? ==> r.value.issueDateFrom == raw.issueDateFrom && r.value.issueDateTo == raw.issueDateTo
  {
    var status := if raw.status.Some? then ParseStatus(raw.status.value) else None;
    if raw.status.Some? && status.None? then None
    else Some(ListQuery(NumberOr(raw.page, 1), NumberOr(raw.limit, 10), status,
                        raw.q, raw.buyerName, raw.issueDateFrom, raw.issueDateTo))
  }

  /** With page and limit missing or empty, the first page of ten is asked for. */
  lemma ListQueryDefaults(raw: RawListQuery)
    requires raw.page.None? || raw.page == Some("")
    requires raw.limit.None? || raw.limit == Some("")
    requires raw.status.None?
    ensures ParseListQuery(raw).Some?
    ensures ParseListQuery(raw).value.page == Parsed(1) && ParseListQuery(raw).value.limit == Parsed(10)
  {
  }
}
