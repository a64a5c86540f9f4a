/**
 * The invoice repository (src/repositories/invoice.repo.ts) over a database
 * held as values: the `invoice` table as a map from id to row, the id
 * generator as a counter, and the `invoiceNumberSeq` table.
 *
 * Ids are natural numbers handed out in order instead of generated UUIDs.
 * The clock is the parameter `now`.
 */
module InvoiceRepo {
  import opened Wrappers
  import opened Strings
  import opened Money
  import opened InvoiceSchemas
  import opened Numbering

  type Id = nat

  /** An `invoice` row with its items. */
  datatype Invoice = Invoice(
    id: Id,
    number: Option<string>,
    status: InvoiceStatus,
    buyerName: string,
    buyerTaxId: Option<string>,
    buyerAddress: Option<string>,
    sellerName: string,
    sellerTaxId: Option<string>,
    issueDate: Option<int>,
    dueDate: Option<int>,
    notes: Option<string>,
    subtotal: real,
    taxTotal: real,
    grandTotal: real,
    items: seq<CalculatedItem>,
    cancelReason: Option<string>,
    canceledAt: Option<int>,
    replacementOfId: Option<Id>,
    replacedById: Option<Id>,
    createdAt: int)

  /** What a create call supplies for a new row. */
  datatype InvoiceData = InvoiceData(
    number: Option<string>,
    issueDate: Option<int>,
    buyerName: string,
    buyerTaxId: Option<string>,
    buyerAddress: Option<string>,
    sellerName: string,
    sellerTaxId: Option<string>,
    dueDate: Option<int>,
    notes: Option<string>,
    totals: Totals,
    items: seq<CalculatedItem>)

  /** What an update supplies; `None` leaves the column as it is. */
  datatype InvoicePatch = InvoicePatch(
    buyerName: Option<string>,
    buyerTaxId: Option<string>,
    buyerAddress: Option<string>,
    sellerName: Option<string>,
    sellerTaxId: Option<string>,
    dueDate: Option<int>,
    notes: Option<string>,
    totals: Option<Totals>,
    items: Option<seq<CalculatedItem>>)

  /** The keys of the error messages the invoice code raises. */
  datatype Message =
    | NotExists | ReplacementTargetNotFound
    | OnlyUpdateDraft | OnlyDeleteDraft | OnlyIssueDraft | OnlyCancelIssued | OnlyReplaceIssued
    | MissingRequiredData | CancelReasonRequired | AlreadyReplaced | CannotCancelReplaced

  /** What an operation throws: the two HTTP error responses, or a database error code. */
  datatype Failure = BadRequest(message: Message) | NotFound(message: Message) | PrismaError(code: string)

  /** Prisma's code for an update or delete whose row does not exist. */
  const RecordNotFound := "P2025"

  /** The database: the invoice table, the next id, and the sequence table. */
  datatype Db = Db(invoices: map<Id, Invoice>, nextId: Id, sequences: SequenceTable)

  /** Every row is stored under its own id, and every id is below the next one to be handed out. */
  predicate WellKeyed(db: Db) {
    forall id :: id in db.invoices ==> id < db.nextId && db.invoices[id].id == id
  }

  // ---------------------------------------------------------------------------
  // Rows
  // ---------------------------------------------------------------------------

  /** The row `create` inserts: no cancellation and no links. */
  function NewRow(data: InvoiceData, id: Id, status: InvoiceStatus, now: int): (inv: Invoice)
    ensures inv.id == id && inv.status == status && inv.createdAt == now
    ensures inv.number == data.number && inv.issueDate == data.issueDate && inv.items == data.items
    ensures inv.buyerName == data.buyerName && inv.buyerTaxId == data.buyerTaxId
    ensures inv.buyerAddress == data.buyerAddress
    ensures inv.sellerName == data.sellerName && inv.sellerTaxId == data.sellerTaxId
    ensures inv.dueDate == data.dueDate && inv.notes == data.notes
    ensures Totals(inv.subtotal, inv.taxTotal, inv.grandTotal) == data.totals
    ensures inv.cancelReason.None? && inv.canceledAt.None?
    ensures inv.replacementOfId.None? && inv.replacedById.None?
  {
    Invoice(id, data.number, status, data.buyerName, data.buyerTaxId, data.buyerAddress,
            data.sellerName, data.sellerTaxId, data.issueDate, data.dueDate, data.notes,
            data.totals.subtotal, data.totals.taxTotal, data.totals.grandTotal, data.items,
            None, None, None, None, now)
  }

  /** The row after `update` with `patch`: given fields replace, omitted ones stay. */
  function Patched(inv: Invoice, p: InvoicePatch): (r: Invoice)
    ensures r.id == inv.id && r.status == inv.status && r.number == inv.number && r.createdAt == inv.createdAt
    ensures r.replacementOfId == inv.replacementOfId && r.replacedById == inv.replacedById
    ensures r.issueDate == inv.issueDate && r.cancelReason == inv.cancelReason && r.canceledAt == inv.canceledAt
    ensures r.buyerName == p.buyerName.GetOr(inv.buyerName) && r.sellerName == p.sellerName.GetOr(inv.sellerName)
    ensures p.buyerTaxId.Some? ==> r.buyerTaxId == p.buyerTaxId
    ensures p.buyerTaxId.None? ==> r.buyerTaxId == inv.buyerTaxId
    ensures p.buyerAddress.Some? ==> r.buyerAddress == p.buyerAddress
    ensures p.buyerAddress.None? ==> r.buyerAddress == inv.buyerAddress
    ensures p.sellerTaxId.Some? ==> r.sellerTaxId == p.sellerTaxId
    ensures p.sellerTaxId.None? ==> r.sellerTaxId == inv.sellerTaxId
    ensures p.dueDate.Some? ==> r.dueDate == p.dueDate
    ensures p.dueDate.None? ==> r.dueDate == inv.dueDate
    ensures p.notes.Some? ==> r.notes == p.notes
    ensures p.notes.None? ==> r.notes == inv.notes
    ensures r.items == p.items.GetOr(inv.items)
    ensures p.totals.Some? ==> Totals(r.subtotal, r.taxTotal, r.grandTotal) == p.totals.value
    ensures p.totals.None? ==>
      r.subtotal == inv.subtotal && r.taxTotal == inv.taxTotal && r.grandTotal == inv.grandTotal
  {
    var t := p.totals.GetOr(Totals(inv.subtotal, inv.taxTotal, inv.grandTotal));
    inv.(buyerName := p.buyerName.GetOr(inv.buyerName),
         buyerTaxId := if p.buyerTaxId.Some? then p.buyerTaxId else inv.buyerTaxId,
         buyerAddress := if p.buyerAddress.Some? then p.buyerAddress else inv.buyerAddress,
         sellerName := p.sellerName.GetOr(inv.sellerName),
         sellerTaxId := if p.sellerTaxId.Some? then p.sellerTaxId else inv.sellerTaxId,
         dueDate := if p.dueDate.Some? then p.dueDate else inv.dueDate,
         notes := if p.notes.Some? then p.notes else inv.notes,
         subtotal := t.subtotal, taxTotal := t.taxTotal, grandTotal := t.grandTotal,
         items := p.items.GetOr(inv.items))
  }

  /** An update that supplies nothing changes nothing. */
  lemma EmptyPatchKeepsRow(inv: Invoice)
    ensures Patched(inv, InvoicePatch(None, None, None, None, None, None, None, None, None)) == inv
  {
  }

  // ---------------------------------------------------------------------------
  // Operations on the database value
  // ---------------------------------------------------------------------------

  /** `createDraft`: a new row under a fresh id, always in status draft. */
  function CreateDraftIn(db: Db, data: InvoiceData, now: int): (r: (Db, Invoice))
    ensures r.1 == NewRow(data, db.nextId, Draft, now)
    ensures r.1.status == Draft && r.1.id == db.nextId
    ensures WellKeyed(db) ==> db.nextId !in db.invoices
    ensures r.0.invoices == db.invoices[db.nextId := r.1] && r.0.nextId == db.nextId + 1
    ensures r.0.sequences == db.sequences
    ensures WellKeyed(db) ==> WellKeyed(r.0)
  {
    var inv := NewRow(data, db.nextId, Draft, now);
    (db.(invoices := db.invoices[db.nextId := inv], nextId := db.nextId + 1), inv)
  }

  /** Is there a draft with this id? */
  predicate IsDraft(db: Db, id: Id) {
    id in db.invoices && db.invoices[id].status == Draft
  }

  /** `updateDraft`: only a stored draft may be updated; the error leaves the database alone. */
  function UpdateDraftIn(db: Db, id: Id, patch: InvoicePatch): (r: (Db, Result<Invoice, Failure>))
    ensures r.1.Err? <==> !IsDraft(db, id)
    ensures r.1.Err? ==> r.0 == db && r.1.error == BadRequest(OnlyUpdateDraft)
    ensures r.1.Ok? ==> r.1.value == Patched(db.invoices[id], patch) && r.1.value.status == Draft
    ensures r.1.Ok? ==> r.0 == db.(invoices := db.invoices[id := r.1.value])
    ensures WellKeyed(db) ==> WellKeyed(r.0)
  {
    if !IsDraft(db, id) then (db, Err(BadRequest(OnlyUpdateDraft)))
    else
      var inv := Patched(db.invoices[id], patch);
      (db.(invoices := db.invoices[id := inv]), Ok(inv))
  }

  /** `deleteDraft`: only a stored draft may be deleted; it is removed and `true` returned. */
  function DeleteDraftIn(db: Db, id: Id): (r: (Db, Result<bool, Failure>))
    ensures r.1.Err? <==> !IsDraft(db, id)
    ensures r.1.Err? ==> r.0 == db && r.1.error == BadRequest(OnlyDeleteDraft)
    ensures r.1.Ok? ==> r.1.value && r.0 == db.(invoices := db.invoices - {id})
    ensures WellKeyed(db) ==> WellKeyed(r.0)
  {
    if !IsDraft(db, id) then (db, Err(BadRequest(OnlyDeleteDraft)))
    else (db.(invoices := db.invoices - {id}), Ok(true))
  }

  /** `markIssued`: status, number and issue date change, every other column stays. */
  function MarkIssuedIn(db: Db, id: Id, number: string, issueDate: int): (r: (Db, Result<Invoice, Failure>))
    ensures r.1.Err? <==> id !in db.invoices
    ensures r.1.Err? ==> r.0 == db && r.1.error == PrismaError(RecordNotFound)
    ensures r.1.Ok? ==> var inv := r.1.value;
      && inv.status == Issued && inv.number == Some(number) && inv.issueDate == Some(issueDate)
      && inv.(status := db.invoices[id].status, number := db.invoices[id].number,
              issueDate := db.invoices[id].issueDate) == db.invoices[id]
      && r.0 == db.(invoices := db.invoices[id := inv])
    ensures WellKeyed(db) ==> WellKeyed(r.0)
  {
    if id !in db.invoices then (db, Err(PrismaError(RecordNotFound)))
    else
      var inv := db.invoices[id].(status := Issued, number := Some(number), issueDate := Some(issueDate));
      (db.(invoices := db.invoices[id := inv]), Ok(inv))
  }

  /** `markCanceled`: status, reason and cancellation time change, every other column stays. */
  function MarkCanceledIn(db: Db, id: Id, reason: string, now: int): (r: (Db, Result<Invoice, Failure>))
    ensures r.1.Err? <==> id !in db.invoices
    ensures r.1.Err? ==> r.0 == db && r.1.error == PrismaError(RecordNotFound)
    ensures r.1.Ok? ==> var inv := r.1.value;
      && inv.status == Canceled && inv.cancelReason == Some(reason) && inv.canceledAt == Some(now)
      && inv.(status := db.invoices[id].status, cancelReason := db.invoices[id].cancelReason,
              canceledAt := db.invoices[id].canceledAt) == db.invoices[id]
      && r.0 == db.(invoices := db.invoices[id := inv])
    ensures WellKeyed(db) ==> WellKeyed(r.0)
  {
    if id !in db.invoices then (db, Err(PrismaError(RecordNotFound)))
    else
      var inv := db.invoices[id].(status := Canceled, cancelReason := Some(reason), canceledAt := Some(now));
      (db.(invoices := db.invoices[id := inv]), Ok(inv))
  }

  /**
   * `createReplacement`, one transaction: an issued row pointing back at the
   * original, and the original pointing forward at it.  Without the original
   * the transaction fails and nothing is written.
   */
  function CreateReplacementIn(db: Db, originalId: Id, data: InvoiceData, now: int)
    : (r: (Db, Result<(Invoice, Invoice), Failure>))
    ensures r.1.Err? <==> originalId !in db.invoices
    ensures r.1.Err? ==> r.0 == db
    ensures r.1.Ok? ==> var (old', new') := r.1.value;
      && new'.id == db.nextId && new'.status == Issued && new'.replacementOfId == Some(originalId)
      && new' == NewRow(data, db.nextId, Issued, now).(replacementOfId := Some(originalId))
      && old' == db.invoices[originalId].(replacedById := Some(new'.id))
      && r.0.invoices == db.invoices[new'.id := new'][originalId := old']
      && r.0.nextId == db.nextId + 1 && r.0.sequences == db.sequences
    ensures WellKeyed(db) ==> WellKeyed(r.0)
  {
    if originalId !in db.invoices then (db, Err(PrismaError(RecordNotFound)))
    else
      var new' := NewRow(data, db.nextId, Issued, now).(replacementOfId := Some(originalId));
      var old' := db.invoices[originalId].(replacedById := Some(db.nextId));
      (db.(invoices := db.invoices[db.nextId := new'][originalId := old'], nextId := db.nextId + 1),
       Ok((old', new')))
  }

  /** The replacement and the original point at each other afterwards. */
  lemma ReplacementLinksBothWays(db: Db, originalId: Id, data: InvoiceData, now: int)
    requires WellKeyed(db) && originalId in db.invoices
    ensures var (db', r) := CreateReplacementIn(db, originalId, data, now);
      && r.Ok?
      && var newId := r.value.1.id;
      && newId != originalId && newId in db'.invoices && originalId in db'.invoices
      && db'.invoices[originalId].replacedById == Some(newId)
      && db'.invoices[newId].replacementOfId == Some(originalId)
      && WellKeyed(db')
  {
  }

  /** `getNextInvoiceNumber`: the year's counter advances and its new value is formatted. */
  function NextInvoiceNumberIn(db: Db, year: int): (r: (Db, string))
    ensures r.0 == db.(sequences := Upserted(db.sequences, year))
    ensures 1000 <= year <= 9999 && r.0.sequences[year] < 1000000 ==>
      ParseInvoiceNumber(r.1) == Some(ParsedNumber(year, r.0.sequences[year]))
  {
    var t := Upserted(db.sequences, year);
    var number := FormatInvoiceNumber(year, t[year]);
    if 1000 <= year <= 9999 && t[year] < 1000000 then
      FormatThenParse(year, t[year]);
      (db.(sequences := t), number)
    else
      (db.(sequences := t), number)
  }

  // ---------------------------------------------------------------------------
  // Listing
  // ---------------------------------------------------------------------------

  /** The `where` filter the listing applies; every part is optional. */
  datatype Where = Where(
    status: Option<InvoiceStatus>,
    buyerName: Option<string>,
    issueFrom: Option<int>,
    issueTo: Option<int>,
    number: Option<string>,
    search: Option<string>)

  const AnyInvoice := Where(None, None, None, None, None, None)

  /** `contains` with `mode: 'insensitive'` on a nullable column: null never matches. */
  predicate NullableContains(column: Option<string>, term: string) {
    column.Some? && ContainsInsensitive(column.value, term)
  }

  /** Does the row satisfy every part of the filter?  `search` is the OR over buyer name and number. */
  predicate Matches(inv: Invoice, w: Where) {
    && (w.status.Some? ==> inv.status == w.status.value)
    && (w.buyerName.Some? ==> ContainsInsensitive(inv.buyerName, w.buyerName.value))
    && (w.issueFrom.Some? ==> inv.issueDate.Some? && inv.issueDate.value >= w.issueFrom.value)
    && (w.issueTo.Some? ==> inv.issueDate.Some? && inv.issueDate.value <= w.issueTo.value)
    && (w.number.Some? ==> NullableContains(inv.number, w.number.value))
    && (w.search.Some? ==>
          ContainsInsensitive(inv.buyerName, w.search.value) || NullableContains(inv.number, w.search.value))
  }

  /** The rows with ids below `n` that match, in id order. */
  function MatchingBelow(invoices: map<Id, Invoice>, w: Where, n: nat): (rows: seq<Invoice>)
    ensures |rows| <= n
    ensures forall i :: 0 <= i < |rows| ==> rows[i].id < n
    decreases n
  {
    if n == 0 then []
    else
      var earlier := MatchingBelow(invoices, w, n - 1);
      var k := n - 1;
      if k in invoices && invoices[k].id == k && Matches(invoices[k], w) then earlier + [invoices[k]] else earlier
  }

  /** Exactly the stored rows that match are collected, each once. */
  lemma MatchingBelowExact(invoices: map<Id, Invoice>, w: Where, n: nat, inv: Invoice)
    requires forall id :: id in invoices ==> invoices[id].id == id
    ensures inv in MatchingBelow(invoices, w, n) <==>
      inv.id < n && inv.id in invoices && invoices[inv.id] == inv && Matches(inv, w)
    ensures multiset(MatchingBelow(invoices, w, n))[inv] <= 1
  {
    MatchingBelowMembers(invoices, w, n, inv);
    MatchingBelowOnce(invoices, w, n, inv);
  }

  lemma {:induction false} MatchingBelowMembers(invoices: map<Id, Invoice>, w: Where, n: nat, inv: Invoice)
    requires forall id :: id in invoices ==> invoices[id].id == id
    ensures inv in MatchingBelow(invoices, w, n) <==>
      inv.id < n && inv.id in invoices && invoices[inv.id] == inv && Matches(inv, w)
    decreases n
  {
    if n > 0 {
      MatchingBelowMembers(invoices, w, n - 1, inv);
    }
  }

  lemma {:induction false} MatchingBelowOnce(invoices: map<Id, Invoice>, w: Where, n: nat, inv: Invoice)
    requires forall id :: id in invoices ==> invoices[id].id == id
    ensures multiset(MatchingBelow(invoices, w, n))[inv] <= 1
    decreases n
  {
    if n > 0 {
      var k := n - 1;
      var earlier := MatchingBelow(invoices, w, k);
      MatchingBelowOnce(invoices, w, k, inv);
      if k in invoices && invoices[k].id == k && Matches(invoices[k], w) {
        AppendCount(earlier, invoices[k], inv);
        if inv == invoices[k] {
          assert forall i :: 0 <= i < |earlier| ==> earlier[i].id < k;
          assert inv !in earlier;
        }
      }
    }
  }

  /** Appending `x` adds one occurrence of `x` and none of anything else. */
  lemma AppendCount(xs: seq<Invoice>, x: Invoice, y: Invoice)
    ensures y in xs + [x] <==> y in xs || y == x
    ensures multiset(xs + [x])[y] == multiset(xs)[y] + (if x == y then 1 else 0)
  {
    assert multiset(xs + [x]) == multiset(xs) + multiset{x};
  }

  /** Declaration order of the status enum, which is how the database sorts it. */
  function StatusRank(s: InvoiceStatus): (rank: nat)
    ensures rank < 3
    ensures rank == 0 <==> s == Draft
    ensures rank == 2 <==> s == Canceled
  {
    match s
    case Draft => 0
    case Issued => 1
    case Canceled => 2
  }

  /**
   * `orderBy: [{ status: 'asc' }, { createdAt: 'desc' }]`; rows equal on both
   * keys, which the database leaves in no particular order, are put in id order.
   */
  predicate Before(a: Invoice, b: Invoice) {
    StatusRank(a.status) < StatusRank(b.status)
    || (StatusRank(a.status) == StatusRank(b.status)
        && (a.createdAt > b.createdAt || (a.createdAt == b.createdAt && a.id < b.id)))
  }

  predicate Ordered(rows: seq<Invoice>) {
    forall i, j :: 0 <= i < j < |rows| ==> !Before(rows[j], rows[i])
  }

  function InsertRow(x: Invoice, rows: seq<Invoice>): (r: seq<Invoice>)
    requires Ordered(rows)
    ensures Ordered(r) && multiset(r) == multiset(rows) + multiset{x}
  {
    if rows == [] || !Before(rows[0], x) then
      InsertInFront(rows, x);
      [x] + rows
    else
      var rest := InsertRow(x, rows[1..]);
      assert rows == [rows[0]] + rows[1..];
      assert multiset([rows[0]] + rest) == multiset{rows[0]} + multiset(rest);
      InsertBehindHead(rows, x, rest);
      [rows[0]] + rest
  }

  lemma InsertInFront(rows: seq<Invoice>, x: Invoice)
    requires Ordered(rows) && (rows == [] || !Before(rows[0], x))
    ensures Ordered([x] + rows)
  {
    var r := [x] + rows;
    forall i, j | 0 <= i < j < |r|
      ensures !Before(r[j], r[i])
    {
      if i == 0 && j > 1 {
        assert !Before(rows[j - 1], rows[0]);
      }
    }
  }

  /** Putting the head back in front of the tail with `x` inserted keeps the order. */
  lemma InsertBehindHead(rows: seq<Invoice>, x: Invoice, rest: seq<Invoice>)
    requires Ordered(rows) && rows != [] && Before(rows[0], x)
    requires Ordered(rest) && multiset(rest) == multiset(rows[1..]) + multiset{x}
    ensures Ordered([rows[0]] + rest)
  {
    forall k | 0 <= k < |rest|
      ensures !Before(rest[k], rows[0])
    {
      assert rest[k] in multiset(rest);
      if rest[k] != x {
        assert rest[k] in multiset(rows[1..]);
        var j :| 0 <= j < |rows[1..]| && rows[1..][j] == rest[k];
        assert rows[j + 1] == rest[k];
      }
    }
  }

  /** The rows in listing order: ordered, and the same rows. */
  function SortRows(rows: seq<Invoice>): (r: seq<Invoice>)
    ensures Ordered(r) && multiset(r) == multiset(rows)
  {
    if rows == [] then []
    else
      assert rows == rows[..|rows| - 1] + [rows[|rows| - 1]];
      InsertRow(rows[|rows| - 1], SortRows(rows[..|rows| - 1]))
  }

  /** Every matching row, in listing order. */
  function Listing(db: Db, w: Where): (rows: seq<Invoice>)
    ensures Ordered(rows)
  {
    SortRows(MatchingBelow(db.invoices, w, db.nextId))
  }

  /** The membership of the listing: exactly the stored rows that match, none twice. */
  lemma ListingExact(db: Db, w: Where, inv: Invoice)
    requires WellKeyed(db)
    ensures inv in Listing(db, w) <==> inv.id in db.invoices && db.invoices[inv.id] == inv && Matches(inv, w)
    ensures multiset(Listing(db, w))[inv] <= 1
  {
    MatchingBelowExact(db.invoices, w, db.nextId, inv);
    assert inv in Listing(db, w) <==> inv in multiset(Listing(db, w));
    assert inv in MatchingBelow(db.invoices, w, db.nextId) <==> inv in multiset(MatchingBelow(db.invoices, w, db.nextId));
  }

  datatype PageResult = PageResult(data: seq<Invoice>, total: nat, page: int, limit: int, totalPages: int)

  /** `Math.ceil(total / limit)` for a positive limit. */
  function CeilDiv(total: nat, limit: int): (q: nat)
    requires limit >= 1
    ensures q * limit >= total && (q == 0 || (q - 1) * limit < total)
  {
    if total % limit == 0 then total / limit else total / limit + 1
  }

  /** The rows a query with `skip` and `take` returns. */
  function Window(all: seq<Invoice>, skip: nat, take: nat): (data: seq<Invoice>)
    ensures |data| == if skip >= |all| then 0 else Min(take, |all| - skip)
    ensures forall i :: 0 <= i < |data| ==> data[i] == all[skip + i]
  {
    if skip >= |all| then [] else all[skip..Min(skip + take, |all|)]
  }

  function Min(a: int, b: int): int {
    if a <= b then a else b
  }

  /** Two windows of the same size, one after the other, make one window of twice the size. */
  lemma AdjacentWindows(all: seq<Invoice>, skip: nat, take: nat)
    ensures Window(all, skip, take) + Window(all, skip + take, take) == Window(all, skip, 2 * take)
  {
    var joined := Window(all, skip, take) + Window(all, skip + take, take);
    var whole := Window(all, skip, 2 * take);
    assert |joined| == |whole|;
    forall i | 0 <= i < |joined|
      ensures joined[i] == whole[i]
    {
      if i >= |Window(all, skip, take)| {
        assert joined[i] == Window(all, skip + take, take)[i - take];
      }
    }
  }

  /** The number of rows before the first row of a page. */
  function Skip(page: int, limit: int): (skip: nat)
    requires page >= 1 && limit >= 1
  {
    (page - 1) * limit
  }

  lemma NextPageSkip(page: int, limit: int)
    requires page >= 1 && limit >= 1
    ensures Skip(page + 1, limit) == Skip(page, limit) + limit
  {
  }

  /**
   * `list`: page 1 and limit 10 by default, `skip = (page - 1) * limit`,
   * `take = limit`, the total count of matching rows, and the number of
   * pages rounded up.  A page below 1 or a limit below 1 is `None`: it asks
   * the database for a negative skip or a non-positive take, which is not
   * part of this model.
   */
  function ListIn(db: Db, w: Where, page: Option<int>, limit: Option<int>): (r: Option<PageResult>)
    ensures r.Some? <==> page.GetOr(1) >= 1 && limit.GetOr(10) >= 1
    ensures r.Some? ==> r.value.page == page.GetOr(1) && r.value.limit == limit.GetOr(10)
    ensures r.Some? ==> r.value.total == |Listing(db, w)|
    ensures r.Some? ==> r.value.data == Window(Listing(db, w), Skip(r.value.page, r.value.limit), r.value.limit)
    ensures r.Some? ==> r.value.totalPages * r.value.limit >= r.value.total
    ensures r.Some? ==> r.value.totalPages == 0 || (r.value.totalPages - 1) * r.value.limit < r.value.total
  {
    var p, l := page.GetOr(1), limit.GetOr(10);
    if p < 1 || l < 1 then None
    else
      var all := Listing(db, w);
      Some(PageResult(Window(all, Skip(p, l), l), |all|, p, l, CeilDiv(|all|, l)))
  }

  /** Two consecutive pages continue each other without a gap or an overlap. */
  lemma ConsecutivePages(db: Db, w: Where, page: int, limit: int)
    requires page >= 1 && limit >= 1
    ensures ListIn(db, w, Some(page), Some(limit)).value.data + ListIn(db, w, Some(page + 1), Some(limit)).value.data
      == Window(Listing(db, w), Skip(page, limit), 2 * limit)
  {
    var all, skip := Listing(db, w), Skip(page, limit);
    PageIsWindow(db, w, page, limit);
    PageIsWindow(db, w, page + 1, limit);
    NextPageSkip(page, limit);
    AdjacentWindows(all, skip, limit);
    assert ListIn(db, w, Some(page), Some(limit)).value.data == Window(all, skip, limit);
    assert ListIn(db, w, Some(page + 1), Some(limit)).value.data == Window(all, skip + limit, limit);
  }

  lemma PageIsWindow(db: Db, w: Where, page: int, limit: int)
    requires page >= 1 && limit >= 1
    ensures ListIn(db, w, Some(page), Some(limit)).Some?
    ensures ListIn(db, w, Some(page), Some(limit)).value.data == Window(Listing(db, w), Skip(page, limit), limit)
  {
  }

  /** Every row on a page matches the filter and is stored. */
  lemma PageRowsMatch(db: Db, w: Where, page: Option<int>, limit: Option<int>, i: int)
    requires WellKeyed(db)
    requires ListIn(db, w, page, limit).Some? && 0 <= i < |ListIn(db, w, page, limit).value.data|
    ensures var inv := ListIn(db, w, page, limit).value.data[i];
      inv.id in db.invoices && db.invoices[inv.id] == inv && Matches(inv, w)
  {
    ListingExact(db, w, ListIn(db, w, page, limit).value.data[i]);
  }

  // ---------------------------------------------------------------------------
  // The repository object
  // ---------------------------------------------------------------------------

  class InvoiceRepository {
    var invoices: map<Id, Invoice>
    var nextId: Id
    /** The sequence table of the same database. */
    const seqs: InvoiceNumberSeq

    function Snapshot(): Db
      reads this, seqs
    {
      Db(invoices, nextId, seqs.lastValue)
    }

    ghost predicate Valid()
      reads this, seqs
    {
      WellKeyed(Snapshot())
    }

    constructor (seqs: InvoiceNumberSeq)
      ensures this.seqs == seqs && invoices == map[] && nextId == 0
      ensures Valid()
    {
      this.seqs := seqs;
      invoices := map[];
      nextId := 0;
    }

    function FindById(id: Id): (r: Option<Invoice>)
      reads this
      ensures r.Some? <==> id in invoices
      ensures r.Some? ==> r.value == invoices[id]
    {
      Get(invoices, id)
    }

    method CreateDraft(data: InvoiceData, now: int) returns (inv: Invoice)
      requires Valid()
      modifies this
      ensures Valid()
      ensures (Snapshot(), inv) == CreateDraftIn(old(Snapshot()), data, now)
    {
      inv := NewRow(data, nextId, Draft, now);
      invoices := invoices[nextId := inv];
      nextId := nextId + 1;
    }

    method UpdateDraft(id: Id, patch: InvoicePatch) returns (r: Result<Invoice, Failure>)
      requires Valid()
      modifies this
      ensures Valid()
      ensures (Snapshot(), r) == UpdateDraftIn(old(Snapshot()), id, patch)
    {
      var existing := FindById(id);
      if existing.None? || existing.value.status != Draft {
        return Err(BadRequest(OnlyUpdateDraft));
      }
      var inv := Patched(existing.value, patch);
      invoices := invoices[id := inv];
      r := Ok(inv);
    }

    method DeleteDraft(id: Id) returns (r: Result<bool, Failure>)
      requires Valid()
      modifies this
      ensures Valid()
      ensures (Snapshot(), r) == DeleteDraftIn(old(Snapshot()), id)
    {
      var existing := FindById(id);
      if existing.None? || existing.value.status != Draft {
        return Err(BadRequest(OnlyDeleteDraft));
      }
      invoices := invoices - {id};
      r := Ok(true);
    }

    function List(w: Where, page: Option<int>, limit: Option<int>): (r: Option<PageResult>)
      reads this, seqs
      ensures r.Some? ==> r.value.total == |Listing(Snapshot(), w)| && |r.value.data| <= r.value.limit
    {
      ListIn(Snapshot(), w, page, limit)
    }

    method MarkIssued(id: Id, number: string, issueDate: int) returns (r: Result<Invoice, Failure>)
      requires Valid()
      modifies this
      ensures Valid()
      ensures (Snapshot(), r) == MarkIssuedIn(old(Snapshot()), id, number, issueDate)
    {
      if id !in invoices {
        return Err(PrismaError(RecordNotFound));
      }
      var inv := invoices[id].(status := Issued, number := Some(number), issueDate := Some(issueDate));
      invoices := invoices[id := inv];
      r := Ok(inv);
    }

    method MarkCanceled(id: Id, reason: string, now: int) returns (r: Result<Invoice, Failure>)
      requires Valid()
      modifies this
      ensures Valid()
      ensures (Snapshot(), r) == MarkCanceledIn(old(Snapshot()), id, reason, now)
    {
      if id !in invoices {
        return Err(PrismaError(RecordNotFound));
      }
      var inv := invoices[id].(status := Canceled, cancelReason := Some(reason), canceledAt := Some(now));
      invoices := invoices[id := inv];
      r := Ok(inv);
    }

    method CreateReplacement(originalId: Id, data: InvoiceData, now: int)
      returns (r: Result<(Invoice, Invoice), Failure>)
      requires Valid()
      modifies this
      ensures Valid()
      ensures (Snapshot(), r) == CreateReplacementIn(old(Snapshot()), originalId, data, now)
    {
      if originalId !in invoices {
        return Err(PrismaError(RecordNotFound));
      }
      var newInvoice := NewRow(data, nextId, Issued, now).(replacementOfId := Some(originalId));
      var oldInvoice := invoices[originalId].(replacedById := Some(newInvoice.id));
      invoices := invoices[newInvoice.id := newInvoice][originalId := oldInvoice];
      nextId := nextId + 1;
      r := Ok((oldInvoice, newInvoice));
    }

    method GetNextInvoiceNumber(year: int) returns (number: string)
      requires Valid()
      modifies seqs
      ensures Valid()
      ensures (Snapshot(), number) == NextInvoiceNumberIn(old(Snapshot()), year)
    {
      var value := seqs.Upsert(year);
      number := FormatInvoiceNumber(year, value);
    }
  }
}
