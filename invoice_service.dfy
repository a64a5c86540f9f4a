/**
 * The invoice lifecycle (src/services/invoice.service.ts): guards in front of
 * the repository, totals computed from the items, and numbers drawn when an
 * invoice is issued.
 *
 * A draft becomes issued, an issued invoice becomes canceled or is replaced
 * by a new issued invoice; the replaced one stays issued and both point at
 * each other.  The clock is `now` and the current year is `year`.
 */
module InvoiceServices {
  import opened Wrappers
  import opened Strings
  import opened Money
  import opened InvoiceSchemas
  import opened Numbering
  import opened InvoiceRepo

  // ---------------------------------------------------------------------------
  // What the service hands to the repository
  // ---------------------------------------------------------------------------

  /** The columns a create body supplies are stored as given. */
  predicate DataOf(d: InvoiceData, input: CreateInput) {
    && d.buyerName == input.buyerName && d.buyerTaxId == input.buyerTaxId
    && d.buyerAddress == input.buyerAddress
    && d.sellerName == input.sellerName && d.sellerTaxId == input.sellerTaxId
    && d.dueDate == input.dueDate && d.notes == input.notes
  }

  /** The row holds the lines and all three totals computed from these items. */
  predicate PricedFrom(inv: Invoice, items: seq<ItemInput>) {
    var t := InvoiceTotals(items);
    && inv.items == LinesOf(items)
    && inv.subtotal == t.subtotal && inv.taxTotal == t.taxTotal && inv.grandTotal == t.grandTotal
  }

  /** The create data for a body: lines and totals computed, no number yet. */
  function DraftData(input: CreateInput): (d: InvoiceData)
    ensures d.items == LinesOf(input.items) && d.totals == InvoiceTotals(input.items)
    ensures d.totals.grandTotal == d.totals.subtotal + d.totals.taxTotal
    ensures d.number.None? && d.issueDate.None?
    ensures DataOf(d, input)
  {
    InvoiceData(None, None, input.buyerName, input.buyerTaxId, input.buyerAddress, input.sellerName,
                input.sellerTaxId, input.dueDate, input.notes, InvoiceTotals(input.items), LinesOf(input.items))
  }

  /** The update for a body: with items, new lines and totals; without, items and totals untouched. */
  function UpdatePatch(input: UpdateInput): (p: InvoicePatch)
    ensures input.items.Some? ==> p.items == Some(LinesOf(input.items.value))
    ensures input.items.Some? ==> p.totals == Some(InvoiceTotals(input.items.value))
    ensures input.items.None? ==> p.items.None? && p.totals.None?
    ensures p.buyerName == input.buyerName && p.buyerTaxId == input.buyerTaxId
    ensures p.buyerAddress == input.buyerAddress
    ensures p.sellerName == input.sellerName && p.sellerTaxId == input.sellerTaxId
    ensures p.dueDate == input.dueDate && p.notes == input.notes
  {
    var items := if input.items.Some? then Some(LinesOf(input.items.value)) else None;
    var totals := if input.items.Some? then Some(InvoiceTotals(input.items.value)) else None;
    InvoicePatch(input.buyerName, input.buyerTaxId, input.buyerAddress, input.sellerName,
                 input.sellerTaxId, input.dueDate, input.notes, totals, items)
  }

  // ---------------------------------------------------------------------------
  // The operations on the database value
  // ---------------------------------------------------------------------------

  /** `createDraft`: always a draft whose totals are those of its items. */
  function CreateDraftStep(db: Db, input: CreateInput, now: int): (r: (Db, Invoice))
    ensures r.1.status == Draft && r.1.id == db.nextId && r.1.number.None?
    ensures PricedFrom(r.1, input.items) && r.1.grandTotal == r.1.subtotal + r.1.taxTotal
    ensures r.1.buyerName == input.buyerName && r.1.buyerTaxId == input.buyerTaxId
    ensures r.1.buyerAddress == input.buyerAddress
    ensures r.1.sellerName == input.sellerName && r.1.sellerTaxId == input.sellerTaxId
    ensures r.1.dueDate == input.dueDate && r.1.notes == input.notes
    ensures r.1.issueDate.None? && r.1.cancelReason.None? && r.1.canceledAt.None?
    ensures r.1.replacementOfId.None? && r.1.replacedById.None? && r.1.createdAt == now
    ensures r.0.invoices == db.invoices[db.nextId := r.1] && r.0.nextId == db.nextId + 1
    ensures r.0.sequences == db.sequences
  {
    CreateDraftIn(db, DraftData(input), now)
  }

  /** `updateDraft`: NOT_FOUND for a missing id, BAD_REQUEST for anything but a draft. */
  function UpdateDraftStep(db: Db, id: Id, input: UpdateInput): (r: (Db, Result<Invoice, Failure>))
    ensures id !in db.invoices ==> r == (db, Err(NotFound(NotExists)))
    ensures id in db.invoices && db.invoices[id].status != Draft ==> r == (db, Err(BadRequest(OnlyUpdateDraft)))
    ensures IsDraft(db, id) ==> r.1.Ok? && r.0 == db.(invoices := db.invoices[id := r.1.value])
    ensures IsDraft(db, id) ==> r.1.value == Patched(db.invoices[id], UpdatePatch(input))
    ensures IsDraft(db, id) && input.items.Some? ==> PricedFrom(r.1.value, input.items.value)
    ensures IsDraft(db, id) && input.items.None? ==>
      var inv := db.invoices[id];
      && r.1.value.items == inv.items
      && r.1.value.subtotal == inv.subtotal && r.1.value.taxTotal == inv.taxTotal
      && r.1.value.grandTotal == inv.grandTotal
  {
    if id !in db.invoices then (db, Err(NotFound(NotExists)))
    else if db.invoices[id].status != Draft then (db, Err(BadRequest(OnlyUpdateDraft)))
    else UpdateDraftIn(db, id, UpdatePatch(input))
  }

  /** `deleteDraft`: only a stored draft is removed. */
  function DeleteDraftStep(db: Db, id: Id): (r: (Db, Result<bool, Failure>))
    ensures id !in db.invoices ==> r == (db, Err(NotFound(NotExists)))
    ensures id in db.invoices && db.invoices[id].status != Draft ==> r == (db, Err(BadRequest(OnlyDeleteDraft)))
    ensures IsDraft(db, id) ==> r == (db.(invoices := db.invoices - {id}), Ok(true))
  {
    if id !in db.invoices then (db, Err(NotFound(NotExists)))
    else if db.invoices[id].status != Draft then (db, Err(BadRequest(OnlyDeleteDraft)))
    else DeleteDraftIn(db, id)
  }

  /** A draft may be issued only with a buyer name and at least one item. */
  predicate Issuable(inv: Invoice) {
    inv.buyerName != "" && |inv.items| >= 1
  }

  /**
   * `issue`: a draft with a buyer and items gets the next number of the year
   * and today's date; every other case is refused before a number is drawn.
   */
  function IssueStep(db: Db, id: Id, year: int, now: int): (r: (Db, Result<Invoice, Failure>))
    ensures id !in db.invoices ==> r == (db, Err(NotFound(NotExists)))
    ensures id in db.invoices && db.invoices[id].status != Draft ==> r == (db, Err(BadRequest(OnlyIssueDraft)))
    ensures IsDraft(db, id) && !Issuable(db.invoices[id]) ==> r == (db, Err(BadRequest(MissingRequiredData)))
    ensures IsDraft(db, id) && Issuable(db.invoices[id]) ==>
      var t := Upserted(db.sequences, year);
      && r.1.Ok?
      && r.1.value == db.invoices[id].(status := Issued, number := Some(FormatInvoiceNumber(year, t[year])),
                                        issueDate := Some(now))
      && r.0 == Db(db.invoices[id := r.1.value], db.nextId, t)
  {
    if id !in db.invoices then (db, Err(NotFound(NotExists)))
    else if db.invoices[id].status != Draft then (db, Err(BadRequest(OnlyIssueDraft)))
    else if !Issuable(db.invoices[id]) then (db, Err(BadRequest(MissingRequiredData)))
    else
      var (db1, number) := NextInvoiceNumberIn(db, year);
      MarkIssuedIn(db1, id, number, now)
  }

  predicate IsIssued(db: Db, id: Id) {
    id in db.invoices && db.invoices[id].status == Issued
  }

  /** `!reason || reason.trim() === ''`. */
  predicate BlankReason(reason: string) {
    reason == [] || Trim(reason) == []
  }

  /**
   * `cancel`: a blank reason is refused before the invoice is even looked up;
   * then only an issued invoice that has not been replaced is canceled.  The
   * reason is stored as given, untrimmed.
   */
  function CancelStep(db: Db, id: Id, reason: string, now: int): (r: (Db, Result<Invoice, Failure>))
    ensures BlankReason(reason) ==> r == (db, Err(BadRequest(CancelReasonRequired)))
    ensures !BlankReason(reason) && id !in db.invoices ==> r == (db, Err(NotFound(NotExists)))
    ensures !BlankReason(reason) && id in db.invoices && db.invoices[id].status != Issued ==>
      r == (db, Err(BadRequest(OnlyCancelIssued)))
    ensures !BlankReason(reason) && IsIssued(db, id) && db.invoices[id].replacedById.Some? ==>
      r == (db, Err(BadRequest(CannotCancelReplaced)))
    ensures r.1.Ok? <==> !BlankReason(reason) && IsIssued(db, id) && db.invoices[id].replacedById.None?
    ensures r.1.Ok? ==>
      r.1.value == db.invoices[id].(status := Canceled, cancelReason := Some(reason), canceledAt := Some(now))
    ensures r.1.Ok? ==> r.0 == db.(invoices := db.invoices[id := r.1.value])
  {
    if BlankReason(reason) then (db, Err(BadRequest(CancelReasonRequired)))
    else if id !in db.invoices then (db, Err(NotFound(NotExists)))
    else if db.invoices[id].status != Issued then (db, Err(BadRequest(OnlyCancelIssued)))
    else if db.invoices[id].replacedById.Some? then (db, Err(BadRequest(CannotCancelReplaced)))
    else MarkCanceledIn(db, id, reason, now)
  }

  /** The create data of a replacement: issued at once with its number and today's date. */
  function ReplacementData(input: CreateInput, number: string, now: int): (d: InvoiceData)
    ensures d.number == Some(number) && d.issueDate == Some(now)
    ensures d.items == LinesOf(input.items) && d.totals == InvoiceTotals(input.items)
    ensures DataOf(d, input)
  {
    DraftData(input).(number := Some(number), issueDate := Some(now))
  }

  /**
   * `replace`: only an issued invoice not yet replaced; the new invoice is
   * issued with the next number of the year, and the two point at each other.
   */
  function ReplaceStep(db: Db, oldId: Id, input: CreateInput, year: int, now: int)
    : (r: (Db, Result<(Invoice, Invoice), Failure>))
    ensures oldId !in db.invoices ==> r == (db, Err(NotFound(ReplacementTargetNotFound)))
    ensures oldId in db.invoices && db.invoices[oldId].status != Issued ==> r == (db, Err(BadRequest(OnlyReplaceIssued)))
    ensures oldId in db.invoices && db.invoices[oldId].status == Issued && db.invoices[oldId].replacedById.Some? ==>
      r == (db, Err(BadRequest(AlreadyReplaced)))
    ensures r.1.Ok? <==> IsIssued(db, oldId) && db.invoices[oldId].replacedById.None?
    ensures r.1.Ok? ==> r.0.nextId == db.nextId + 1 && r.0.sequences == Upserted(db.sequences, year)
    ensures r.1.Ok? ==> r.1.value.1.id == db.nextId && r.1.value.1.status == Issued
    ensures r.1.Ok? ==> r.1.value.1.replacementOfId == Some(oldId) && r.1.value.1.replacedById.None?
    ensures r.1.Ok? ==>
      r.1.value.1.number == Some(FormatInvoiceNumber(year, Upserted(db.sequences, year)[year]))
    ensures r.1.Ok? ==> r.1.value.1.issueDate == Some(now) && PricedFrom(r.1.value.1, input.items)
    ensures r.1.Ok? ==> r.1.value.1.grandTotal == r.1.value.1.subtotal + r.1.value.1.taxTotal
    ensures r.1.Ok? ==> var n := r.1.value.1;
      && n.buyerName == input.buyerName && n.buyerTaxId == input.buyerTaxId
      && n.buyerAddress == input.buyerAddress
      && n.sellerName == input.sellerName && n.sellerTaxId == input.sellerTaxId
      && n.dueDate == input.dueDate && n.notes == input.notes
      && n.cancelReason.None? && n.canceledAt.None? && n.createdAt == now
    ensures r.1.Ok? ==> r.1.value.0 == db.invoices[oldId].(replacedById := Some(db.nextId))
    ensures r.1.Ok? ==> r.0.invoices == db.invoices[db.nextId := r.1.value.1][oldId := r.1.value.0]
  {
    if oldId !in db.invoices then (db, Err(NotFound(ReplacementTargetNotFound)))
    else if db.invoices[oldId].status != Issued then (db, Err(BadRequest(OnlyReplaceIssued)))
    else if db.invoices[oldId].replacedById.Some? then (db, Err(BadRequest(AlreadyReplaced)))
    else
      var (db1, number) := NextInvoiceNumberIn(db, year);
      CreateReplacementIn(db1, oldId, ReplacementData(input, number, now), now)
  }

  // ---------------------------------------------------------------------------
  // The invariant of the lifecycle
  // ---------------------------------------------------------------------------

  /**
   * What every reachable database satisfies: rows under their own ids;
   * drafts have no number and no links; issued and canceled invoices have a
   * number; a replaced invoice is issued; and replacement links come in
   * matching pairs.
   */
  predicate Consistent(db: Db) {
    && WellKeyed(db)
    && (forall id :: id in db.invoices ==> RowConsistent(db.invoices[id]))
    && ForwardLinks(db.invoices)
    && BackLinks(db.invoices)
  }

  /** Every `replacedById` names a stored invoice that points back. */
  predicate ForwardLinks(invoices: map<Id, Invoice>) {
    forall id :: id in invoices && invoices[id].replacedById.Some? ==>
      var n := invoices[id].replacedById.value;
      n in invoices && invoices[n].replacementOfId == Some(id)
  }

  /** Every `replacementOfId` names a stored invoice that points forward. */
  predicate BackLinks(invoices: map<Id, Invoice>) {
    forall id :: id in invoices && invoices[id].replacementOfId.Some? ==>
      var o := invoices[id].replacementOfId.value;
      o in invoices && invoices[o].replacedById == Some(id)
  }

  predicate RowConsistent(inv: Invoice) {
    && (inv.status == Draft ==> inv.number.None? && inv.replacementOfId.None? && inv.replacedById.None?)
    && (inv.status != Draft ==> inv.number.Some?)
    && (inv.replacedById.Some? ==> inv.status == Issued)
  }

  lemma EmptyDbConsistent(sequences: SequenceTable)
    ensures Consistent(Db(map[], 0, sequences))
  {
  }

  lemma CreateDraftPreserves(db: Db, input: CreateInput, now: int)
    requires Consistent(db)
    ensures Consistent(CreateDraftStep(db, input, now).0)
  {
    var db' := CreateDraftStep(db, input, now).0;
    assert db.nextId !in db.invoices;
    forall id | id in db'.invoices && db'.invoices[id].replacedById.Some?
      ensures var n := db'.invoices[id].replacedById.value;
        n in db'.invoices && db'.invoices[n].replacementOfId == Some(id)
    {
      assert id in db.invoices;
    }
    forall id | id in db'.invoices && db'.invoices[id].replacementOfId.Some?
      ensures var o := db'.invoices[id].replacementOfId.value;
        o in db'.invoices && db'.invoices[o].replacedById == Some(id)
    {
      assert id in db.invoices;
    }
  }

  lemma UpdateDraftPreserves(db: Db, id: Id, input: UpdateInput)
    requires Consistent(db)
    ensures Consistent(UpdateDraftStep(db, id, input).0)
  {
    var r := UpdateDraftStep(db, id, input);
    if IsDraft(db, id) {
      RowSwapPreserves(db, id, r.1.value, db.sequences);
      assert r.0 == Db(db.invoices[id := r.1.value], db.nextId, db.sequences);
    }
  }

  /**
   * Rewriting one row in place keeps the invariant when the new row is
   * consistent on its own and keeps both links of the old one.
   */
  lemma RowSwapPreserves(db: Db, id: Id, row: Invoice, sequences: SequenceTable)
    requires Consistent(db) && id in db.invoices
    requires row.id == id && RowConsistent(row)
    requires row.replacedById == db.invoices[id].replacedById
    requires row.replacementOfId == db.invoices[id].replacementOfId
    ensures Consistent(Db(db.invoices[id := row], db.nextId, sequences))
  {
    SwapForward(db.invoices, id, row);
    SwapBack(db.invoices, id, row);
  }

  lemma SwapForward(invoices: map<Id, Invoice>, id: Id, row: Invoice)
    requires ForwardLinks(invoices) && id in invoices
    requires row.replacedById == invoices[id].replacedById
    requires row.replacementOfId == invoices[id].replacementOfId
    ensures ForwardLinks(invoices[id := row])
  {
    var invoices' := invoices[id := row];
    forall k | k in invoices' && invoices'[k].replacedById.Some?
      ensures var n := invoices'[k].replacedById.value;
        n in invoices' && invoices'[n].replacementOfId == Some(k)
    {
      assert invoices'[k].replacedById == invoices[k].replacedById;
    }
  }

  lemma SwapBack(invoices: map<Id, Invoice>, id: Id, row: Invoice)
    requires BackLinks(invoices) && id in invoices
    requires row.replacedById == invoices[id].replacedById
    requires row.replacementOfId == invoices[id].replacementOfId
    ensures BackLinks(invoices[id := row])
  {
    var invoices' := invoices[id := row];
    forall k | k in invoices' && invoices'[k].replacementOfId.Some?
      ensures var o := invoices'[k].replacementOfId.value;
        o in invoices' && invoices'[o].replacedById == Some(k)
    {
      assert invoices'[k].replacementOfId == invoices[k].replacementOfId;
    }
  }

  lemma DeleteDraftPreserves(db: Db, id: Id)
    requires Consistent(db)
    ensures Consistent(DeleteDraftStep(db, id).0)
  {
    var db' := DeleteDraftStep(db, id).0;
    if IsDraft(db, id) {
      forall k | k in db'.invoices && db'.invoices[k].replacedById.Some?
        ensures db'.invoices[k].replacedById.value in db'.invoices
      {
        assert db.invoices[db.invoices[k].replacedById.value].replacementOfId == Some(k);
      }
      forall k | k in db'.invoices && db'.invoices[k].replacementOfId.Some?
        ensures db'.invoices[k].replacementOfId.value in db'.invoices
      {
        assert db.invoices[db.invoices[k].replacementOfId.value].replacedById == Some(k);
      }
    }
  }

  lemma IssuePreserves(db: Db, id: Id, year: int, now: int)
    requires Consistent(db)
    ensures Consistent(IssueStep(db, id, year, now).0)
  {
    var r := IssueStep(db, id, year, now);
    if IsDraft(db, id) && Issuable(db.invoices[id]) {
      assert RowConsistent(db.invoices[id]);
      RowSwapPreserves(db, id, r.1.value, r.0.sequences);
    }
  }

  lemma CancelPreserves(db: Db, id: Id, reason: string, now: int)
    requires Consistent(db)
    ensures Consistent(CancelStep(db, id, reason, now).0)
  {
    var r := CancelStep(db, id, reason, now);
    if r.1.Ok? {
      assert RowConsistent(db.invoices[id]);
      RowSwapPreserves(db, id, r.1.value, db.sequences);
      assert r.0 == Db(db.invoices[id := r.1.value], db.nextId, db.sequences);
    }
  }

  lemma ReplacePreserves(db: Db, oldId: Id, input: CreateInput, year: int, now: int)
    requires Consistent(db)
    ensures Consistent(ReplaceStep(db, oldId, input, year, now).0)
  {
    var r := ReplaceStep(db, oldId, input, year, now);
    if r.1.Ok? {
      var newRow := r.1.value.1;
      PairedConsistent(db, oldId, newRow, r.0.sequences);
      assert r.0 == Db(Paired(db.invoices, oldId, db.nextId, newRow), db.nextId + 1, r.0.sequences);
    }
  }

  /** The rows after a replacement: the new row `n`, and the original `o` pointing at it. */
  function Paired(invoices: map<Id, Invoice>, o: Id, n: Id, newRow: Invoice): map<Id, Invoice>
    requires o in invoices
  {
    invoices[n := newRow][o := invoices[o].(replacedById := Some(n))]
  }

  lemma PairedConsistent(db: Db, o: Id, newRow: Invoice, sequences: SequenceTable)
    requires Consistent(db) && o in db.invoices && db.invoices[o].status == Issued
    requires db.invoices[o].replacedById.None?
    requires newRow.id == db.nextId && newRow.status == Issued && newRow.number.Some?
    requires newRow.replacementOfId == Some(o) && newRow.replacedById.None?
    ensures Consistent(Db(Paired(db.invoices, o, db.nextId, newRow), db.nextId + 1, sequences))
  {
    assert db.nextId !in db.invoices;
    PairedForward(db.invoices, o, db.nextId, newRow);
    PairedBack(db.invoices, o, db.nextId, newRow);
    PairedRows(db, o, newRow, sequences);
  }

  /** The new replacement and the marked original are consistent rows under their own ids. */
  lemma PairedRows(db: Db, o: Id, newRow: Invoice, sequences: SequenceTable)
    requires Consistent(db) && o in db.invoices && db.invoices[o].status == Issued
    requires newRow.id == db.nextId && newRow.status == Issued && newRow.number.Some? && newRow.replacedById.None?
    ensures var invoices' := Paired(db.invoices, o, db.nextId, newRow);
      && WellKeyed(Db(invoices', db.nextId + 1, sequences))
      && forall id :: id in invoices' ==> RowConsistent(invoices'[id])
  {
    assert RowConsistent(db.invoices[o]);
  }

  /** Linking a new replacement to an unreplaced original keeps the forward links. */
  lemma PairedForward(invoices: map<Id, Invoice>, o: Id, n: Id, newRow: Invoice)
    requires ForwardLinks(invoices) && BackLinks(invoices)
    requires o in invoices && n !in invoices && invoices[o].replacedById.None?
    requires newRow.replacementOfId == Some(o) && newRow.replacedById.None?
    ensures ForwardLinks(Paired(invoices, o, n, newRow))
  {
    var invoices' := Paired(invoices, o, n, newRow);
    forall k | k in invoices' && invoices'[k].replacedById.Some?
      ensures var m := invoices'[k].replacedById.value;
        m in invoices' && invoices'[m].replacementOfId == Some(k)
    {
      if k != o {
        assert k in invoices && invoices'[k] == invoices[k];
        assert invoices[k].replacedById.value != n;
      }
    }
  }

  /** Linking a new replacement to an unreplaced original keeps the back links. */
  lemma PairedBack(invoices: map<Id, Invoice>, o: Id, n: Id, newRow: Invoice)
    requires ForwardLinks(invoices) && BackLinks(invoices)
    requires o in invoices && n !in invoices && invoices[o].replacedById.None?
    requires newRow.replacementOfId == Some(o) && newRow.replacedById.None?
    ensures BackLinks(Paired(invoices, o, n, newRow))
  {
    var invoices' := Paired(invoices, o, n, newRow);
    forall k | k in invoices' && invoices'[k].replacementOfId.Some?
      ensures var p := invoices'[k].replacementOfId.value;
        p in invoices' && invoices'[p].replacedById == Some(k)
    {
      if k != n {
        assert k in invoices;
        assert invoices[k].replacementOfId.value != o;
      }
    }
  }

  // ---------------------------------------------------------------------------
  // Status only moves forward
  // ---------------------------------------------------------------------------

  /**
   * From `db` to `db'` no invoice went back in the lifecycle, no assigned
   * number changed, no link was removed, and only drafts disappeared.
   */
  predicate Forward(db: Db, db': Db) {
    forall id :: id in db.invoices ==>
      if id in db'.invoices then
        var a, b := db.invoices[id], db'.invoices[id];
        && StatusRank(a.status) <= StatusRank(b.status)
        && (a.number.Some? ==> b.number == a.number)
        && (a.replacedById.Some? ==> b.replacedById == a.replacedById)
        && b.replacementOfId == a.replacementOfId
      else
        db.invoices[id].status == Draft
  }

  lemma CreateDraftMovesForward(db: Db, input: CreateInput, now: int)
    requires Consistent(db)
    ensures Forward(db, CreateDraftStep(db, input, now).0)
  {
    assert db.nextId !in db.invoices;
  }

  lemma UpdateDraftMovesForward(db: Db, id: Id, input: UpdateInput)
    ensures Forward(db, UpdateDraftStep(db, id, input).0)
  {
    var r := UpdateDraftStep(db, id, input);
    if IsDraft(db, id) {
      RowSwapMovesForward(db, id, r.1.value, db.sequences);
      assert r.0 == Db(db.invoices[id := r.1.value], db.nextId, db.sequences);
    }
  }

  lemma DeleteDraftMovesForward(db: Db, id: Id)
    ensures Forward(db, DeleteDraftStep(db, id).0)
  {
  }

  lemma IssueMovesForward(db: Db, id: Id, year: int, now: int)
    requires Consistent(db)
    ensures Forward(db, IssueStep(db, id, year, now).0)
  {
    var r := IssueStep(db, id, year, now);
    if IsDraft(db, id) && Issuable(db.invoices[id]) {
      assert RowConsistent(db.invoices[id]);
      RowSwapMovesForward(db, id, r.1.value, r.0.sequences);
    }
  }

  /** Rewriting one row moves forward when the row itself does. */
  lemma RowSwapMovesForward(db: Db, id: Id, row: Invoice, sequences: SequenceTable)
    requires id in db.invoices
    requires StatusRank(db.invoices[id].status) <= StatusRank(row.status)
    requires db.invoices[id].number.Some? ==> row.number == db.invoices[id].number
    requires db.invoices[id].replacedById.Some? ==> row.replacedById == db.invoices[id].replacedById
    requires row.replacementOfId == db.invoices[id].replacementOfId
    ensures Forward(db, Db(db.invoices[id := row], db.nextId, sequences))
  {
  }

  lemma CancelMovesForward(db: Db, id: Id, reason: string, now: int)
    requires Consistent(db)
    ensures Forward(db, CancelStep(db, id, reason, now).0)
  {
    var r := CancelStep(db, id, reason, now);
    if r.1.Ok? {
      RowSwapMovesForward(db, id, r.1.value, db.sequences);
      assert r.0 == Db(db.invoices[id := r.1.value], db.nextId, db.sequences);
    }
  }

  lemma ReplaceMovesForward(db: Db, oldId: Id, input: CreateInput, year: int, now: int)
    requires Consistent(db)
    ensures Forward(db, ReplaceStep(db, oldId, input, year, now).0)
  {
    var r := ReplaceStep(db, oldId, input, year, now);
    if r.1.Ok? {
      assert db.nextId !in db.invoices;
      PairedMovesForward(db, oldId, r.1.value.1, r.0.sequences);
      assert r.0 == Db(Paired(db.invoices, oldId, db.nextId, r.1.value.1), db.nextId + 1, r.0.sequences);
    }
  }

  lemma PairedMovesForward(db: Db, o: Id, newRow: Invoice, sequences: SequenceTable)
    requires o in db.invoices && db.nextId !in db.invoices && db.invoices[o].replacedById.None?
    ensures Forward(db, Db(Paired(db.invoices, o, db.nextId, newRow), db.nextId + 1, sequences))
  {
    var invoices' := Paired(db.invoices, o, db.nextId, newRow);
    forall id | id in db.invoices
      ensures id in invoices' && invoices'[id].status == db.invoices[id].status
      ensures invoices'[id].number == db.invoices[id].number
      ensures invoices'[id].replacementOfId == db.invoices[id].replacementOfId
      ensures db.invoices[id].replacedById.Some? ==> invoices'[id].replacedById == db.invoices[id].replacedById
    {
      if id != o {
        assert invoices'[id] == db.invoices[id];
      }
    }
  }


  /** A replaced invoice is final: it can be neither updated, deleted, issued, canceled nor replaced. */
  lemma ReplacedIsFinal(db: Db, id: Id, createIn: CreateInput, updateIn: UpdateInput,
                        reason: string, year: int, now: int)
    requires Consistent(db) && id in db.invoices && db.invoices[id].replacedById.Some?
    ensures db.invoices[id].status == Issued
    ensures UpdateDraftStep(db, id, updateIn) == (db, Err(BadRequest(OnlyUpdateDraft)))
    ensures DeleteDraftStep(db, id) == (db, Err(BadRequest(OnlyDeleteDraft)))
    ensures IssueStep(db, id, year, now) == (db, Err(BadRequest(OnlyIssueDraft)))
    ensures CancelStep(db, id, reason, now).1.Err? && CancelStep(db, id, reason, now).0 == db
    ensures ReplaceStep(db, id, createIn, year, now) == (db, Err(BadRequest(AlreadyReplaced)))
  {
    assert RowConsistent(db.invoices[id]);
  }

  /** A reason of white space only passes the request schema but the service refuses it. */
  lemma WhitespaceReasonRefused(db: Db, id: Id, reason: string, now: int)
    requires |reason| >= 1 && forall i :: 0 <= i < |reason| ==> IsJsWhitespace(reason[i])
    ensures ValidCancel(reason)
    ensures CancelStep(db, id, reason, now) == (db, Err(BadRequest(CancelReasonRequired)))
  {
    TrimEmpty(reason);
  }

  // ---------------------------------------------------------------------------
  // List filter
  // ---------------------------------------------------------------------------

  datatype DateRange = DateRange(from: Option<int>, to: Option<int>)

  /** The filter the controller passes to `list`. */
  datatype InvoiceFilter = InvoiceFilter(
    status: Option<InvoiceStatus>,
    q: Option<string>,
    buyerName: Option<string>,
    issueDate: Option<DateRange>)

  /**
   * The `whereCondition` built by `list`: status and date bounds as given, a
   * non-empty buyer name as a substring filter, and the trimmed search term
   * over buyer name or number from three characters on, over the number alone
   * below that.
   */
  function BuildWhere(f: InvoiceFilter): (w: Where)
    ensures w.status == f.status
    ensures w.buyerName == if f.buyerName.Some? && f.buyerName.value != [] then f.buyerName else None
  {
    var buyer := if f.buyerName.Some? && f.buyerName.value != [] then f.buyerName else None;
    var from := if f.issueDate.Some? then f.issueDate.value.from else None;
    var to := if f.issueDate.Some? then f.issueDate.value.to else None;
    var term := if f.q.Some? then Trim(f.q.value) else [];
    var number := if term != [] && |term| < 3 then Some(term) else None;
    var search := if |term| >= 3 then Some(term) else None;
    Where(f.status, buyer, from, to, number, search)
  }

  /** The conditions of the filter other than the search term. */
  predicate MatchesFields(inv: Invoice, f: InvoiceFilter) {
    && (f.status.Some? ==> inv.status == f.status.value)
    && (f.buyerName.Some? && f.buyerName.value != [] ==> ContainsInsensitive(inv.buyerName, f.buyerName.value))
    && (f.issueDate.Some? && f.issueDate.value.from.Some? ==>
          inv.issueDate.Some? && inv.issueDate.value >= f.issueDate.value.from.value)
    && (f.issueDate.Some? && f.issueDate.value.to.Some? ==>
          inv.issueDate.Some? && inv.issueDate.value <= f.issueDate.value.to.value)
  }

  /** What the search term asks of a row. */
  lemma SearchTermSemantics(f: InvoiceFilter, inv: Invoice)
    ensures var term := if f.q.Some? then Trim(f.q.value) else [];
      Matches(inv, BuildWhere(f)) <==>
        && MatchesFields(inv, f)
        && (|term| >= 3 ==> ContainsInsensitive(inv.buyerName, term) || NullableContains(inv.number, term))
        && (1 <= |term| < 3 ==> NullableContains(inv.number, term))
  {
  }

  /** A missing or blank search term does not restrict the listing. */
  lemma BlankSearchIgnored(f: InvoiceFilter, inv: Invoice)
    requires f.q.None? || forall i :: 0 <= i < |f.q.value| ==> IsJsWhitespace(f.q.value[i])
    ensures Matches(inv, BuildWhere(f)) <==> MatchesFields(inv, f)
  {
    if f.q.Some? {
      TrimEmpty(f.q.value);
    }
  }

  /** A short search term never matches a row without a number, such as a draft. */
  lemma ShortSearchSkipsDrafts(f: InvoiceFilter, inv: Invoice)
    requires f.q.Some? && 1 <= |Trim(f.q.value)| < 3 && inv.number.None?
    ensures !Matches(inv, BuildWhere(f))
  {
  }

  // ---------------------------------------------------------------------------
  // The service object
  // ---------------------------------------------------------------------------

  class InvoiceService {
    const repository: InvoiceRepository

    /** The repository is well keyed and its database is consistent. */
    ghost predicate Valid()
      reads this, repository, repository.seqs
    {
      repository.Valid() && Consistent(repository.Snapshot())
    }

    constructor (repository: InvoiceRepository)
      requires repository.Valid() && Consistent(repository.Snapshot())
      ensures this.repository == repository
      ensures Valid()
    {
      this.repository := repository;
    }

    method CreateDraft(input: CreateInput, now: int) returns (inv: Invoice)
      requires Valid()
      modifies repository
      ensures Valid()
      ensures (repository.Snapshot(), inv) == CreateDraftStep(old(repository.Snapshot()), input, now)
    {
      ghost var db := repository.Snapshot();
      var items, totals := CalculateInvoiceFromItems(input.items);
      var data := InvoiceData(None, None, input.buyerName, input.buyerTaxId, input.buyerAddress,
                              input.sellerName, input.sellerTaxId, input.dueDate, input.notes, totals, items);
      inv := repository.CreateDraft(data, now);
      CreateDraftPreserves(db, input, now);
    }

    method UpdateDraft(id: Id, input: UpdateInput) returns (r: Result<Invoice, Failure>)
      requires Valid()
      modifies repository
      ensures Valid()
      ensures (repository.Snapshot(), r) == UpdateDraftStep(old(repository.Snapshot()), id, input)
    {
      ghost var db := repository.Snapshot();
      var existing := repository.FindById(id);
      if existing.None? {
        return Err(NotFound(NotExists));
      }
      if existing.value.status != Draft {
        return Err(BadRequest(OnlyUpdateDraft));
      }
      if input.items.Some? {
        var items, totals := CalculateInvoiceFromItems(input.items.value);
        var patch := InvoicePatch(input.buyerName, input.buyerTaxId, input.buyerAddress, input.sellerName,
                                  input.sellerTaxId, input.dueDate, input.notes, Some(totals), Some(items));
        r := repository.UpdateDraft(id, patch);
        UpdateDraftPreserves(db, id, input);
      } else {
        var patch := InvoicePatch(input.buyerName, input.buyerTaxId, input.buyerAddress, input.sellerName,
                                  input.sellerTaxId, input.dueDate, input.notes, None, None);
        r := repository.UpdateDraft(id, patch);
        UpdateDraftPreserves(db, id, input);
      }
    }

    method DeleteDraft(id: Id) returns (r: Result<bool, Failure>)
      requires Valid()
      modifies repository
      ensures Valid()
      ensures (repository.Snapshot(), r) == DeleteDraftStep(old(repository.Snapshot()), id)
    {
      ghost var db := repository.Snapshot();
      var existing := repository.FindById(id);
      if existing.None? {
        return Err(NotFound(NotExists));
      }
      if existing.value.status != Draft {
        return Err(BadRequest(OnlyDeleteDraft));
      }
      r := repository.DeleteDraft(id);
      DeleteDraftPreserves(db, id);
    }

    method Issue(id: Id, year: int, now: int) returns (r: Result<Invoice, Failure>)
      requires Valid()
      modifies repository, repository.seqs
      ensures Valid()
      ensures (repository.Snapshot(), r) == IssueStep(old(repository.Snapshot()), id, year, now)
    {
      ghost var db := repository.Snapshot();
      var existing := repository.FindById(id);
      if existing.None? {
        return Err(NotFound(NotExists));
      }
      if existing.value.status != Draft {
        return Err(BadRequest(OnlyIssueDraft));
      }
      if existing.value.buyerName == "" || |existing.value.items| == 0 {
        return Err(BadRequest(MissingRequiredData));
      }
      var number := GenerateInvoiceNumber(repository.seqs, year);
      r := repository.MarkIssued(id, number, now);
      IssuePreserves(db, id, year, now);
    }

    method Cancel(id: Id, reason: string, now: int) returns (r: Result<Invoice, Failure>)
      requires Valid()
      modifies repository
      ensures Valid()
      ensures (repository.Snapshot(), r) == CancelStep(old(repository.Snapshot()), id, reason, now)
    {
      ghost var db := repository.Snapshot();
      if reason == "" || Trim(reason) == "" {
        return Err(BadRequest(CancelReasonRequired));
      }
      var existing := repository.FindById(id);
      if existing.None? {
        return Err(NotFound(NotExists));
      }
      if existing.value.status != Issued {
        return Err(BadRequest(OnlyCancelIssued));
      }
      if existing.value.replacedById.Some? {
        return Err(BadRequest(CannotCancelReplaced));
      }
      r := repository.MarkCanceled(id, reason, now);
      CancelPreserves(db, id, reason, now);
    }

    method Replace(oldId: Id, input: CreateInput, year: int, now: int)
      returns (r: Result<(Invoice, Invoice), Failure>)
      requires Valid()
      modifies repository, repository.seqs
      ensures Valid()
      ensures (repository.Snapshot(), r) == ReplaceStep(old(repository.Snapshot()), oldId, input, year, now)
    {
      ghost var db := repository.Snapshot();
      var oldInvoice := repository.FindById(oldId);
      if oldInvoice.None? {
        return Err(NotFound(ReplacementTargetNotFound));
      }
      if oldInvoice.value.status != Issued {
        return Err(BadRequest(OnlyReplaceIssued));
      }
      if oldInvoice.value.replacedById.Some? {
        return Err(BadRequest(AlreadyReplaced));
      }
      var items, totals := CalculateInvoiceFromItems(input.items);
      var number := GenerateInvoiceNumber(repository.seqs, year);
      var data := InvoiceData(Some(number), Some(now), input.buyerName, input.buyerTaxId, input.buyerAddress,
                              input.sellerName, input.sellerTaxId, input.dueDate, input.notes, totals, items);
      r := repository.CreateReplacement(oldId, data, now);
      ReplacePreserves(db, oldId, input, year, now);
    }

    function List(f: InvoiceFilter, page: Option<int>, limit: Option<int>): (r: Option<PageResult>)
      reads repository, repository.seqs
      ensures r == ListIn(repository.Snapshot(), BuildWhere(f), page, limit)
    {
      repository.List(BuildWhere(f), page, limit)
    }
  }
}
