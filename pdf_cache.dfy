/**
 * The invoice cache in front of PDF generation (src/libs/pdf.ts:111-160)
 * and the PDF file-name rule (src/libs/pdf.ts:236, 319).
 *
 * Entries live five minutes.  The database query is not performed here: its
 * outcome at the moment of the call is the parameter `lookup`, and the
 * result says whether the query was made.  `Date.now()` is `now`.
 */
module PdfCaches {
  import opened Wrappers
  import opened InvoiceRepo

  /** `cacheTimeout`: five minutes in milliseconds. */
  const CacheTimeout: int := 5 * 60 * 1000

  datatype Entry = Entry(data: Invoice, timestamp: int)

  type Cache = map<string, Entry>

  /** What `prisma.invoice.findUnique` would give for the id right now. */
  datatype Lookup = Found(invoice: Invoice) | Missing | Failed(message: Option<string>)

  /** The outcome of a query as `findById` reports it, wrapping a failure's message. */
  function QueryResult(lookup: Lookup): (r: Result<Option<Invoice>, string>)
    ensures lookup.Found? ==> r == Ok(Some(lookup.invoice))
    ensures lookup.Missing? ==> r == Ok(None)
    ensures lookup.Failed? ==> r.Err? && |r.error| > 23 && r.error[..23] == "Failed to find invoice:"
  {
    match lookup
    case Found(inv) => Ok(Some(inv))
    case Missing => Ok(None)
    case Failed(message) => Err("Failed to find invoice: " + message.GetOr("Unknown error"))
  }

  /** An entry younger than the timeout. */
  predicate Fresh(cache: Cache, id: string, now: int) {
    id in cache && now - cache[id].timestamp < CacheTimeout
  }

  /** The answer of `findById`, the new cache, and whether the database was queried. */
  datatype FindResult = FindResult(cache: Cache, result: Result<Option<Invoice>, string>, queried: bool)

  /**
   * `findById`: a fresh entry is answered without a query; otherwise the
   * database is queried and a found invoice is cached with the current
   * time, while a missing one or a failure leaves the cache as it was.
   */
  function FindByIdIn(cache: Cache, id: string, now: int, lookup: Lookup): (r: FindResult)
    ensures Fresh(cache, id, now) ==> r == FindResult(cache, Ok(Some(cache[id].data)), false)
    ensures !Fresh(cache, id, now) ==> r.queried && r.result == QueryResult(lookup)
    ensures !Fresh(cache, id, now) && lookup.Found? ==> r.cache == cache[id := Entry(lookup.invoice, now)]
    ensures !lookup.Found? ==> r.cache == cache
  {
    if Fresh(cache, id, now) then FindResult(cache, Ok(Some(cache[id].data)), false)
    else if lookup.Found? then FindResult(cache[id := Entry(lookup.invoice, now)], QueryResult(lookup), true)
    else FindResult(cache, QueryResult(lookup), true)
  }

  /** `clearCache(id?)`: a non-empty id removes that entry; no id, or the empty one, removes all. */
  function ClearCacheIn(cache: Cache, id: Option<string>): (c: Cache)
    ensures id.Some? && id.value != "" ==> c == cache - {id.value}
    ensures id.None? || id.value == "" ==> c == map[]
  {
    if id.Some? && id.value != "" then cache - {id.value} else map[]
  }

  /** `refreshInvoice`: clear the id's entry, then look it up. */
  function RefreshInvoiceIn(cache: Cache, id: string, now: int, lookup: Lookup): (r: FindResult)
    ensures r.queried && r.result == QueryResult(lookup)
    ensures lookup.Found? ==> id in r.cache && r.cache[id] == Entry(lookup.invoice, now)
  {
    FindByIdIn(ClearCacheIn(cache, Some(id)), id, now, lookup)
  }

  /**
   * A found invoice is answered from the cache, without a query and whatever
   * the database now holds, for the next five minutes.
   */
  lemma CachedForTimeout(cache: Cache, id: string, t: int, t': int, lookup: Lookup, later: Lookup)
    requires lookup.Found? && !Fresh(cache, id, t)
    requires t <= t' < t + CacheTimeout
    ensures var first := FindByIdIn(cache, id, t, lookup);
      FindByIdIn(first.cache, id, t', later) == FindResult(first.cache, Ok(Some(lookup.invoice)), false)
  {
  }

  /** After five minutes the entry is stale and the database is asked again. */
  lemma ExpiresAfterTimeout(cache: Cache, id: string, t: int, t': int, lookup: Lookup, later: Lookup)
    requires lookup.Found? && !Fresh(cache, id, t) && t' >= t + CacheTimeout
    ensures var first := FindByIdIn(cache, id, t, lookup);
      var second := FindByIdIn(first.cache, id, t', later);
      second.queried && second.result == QueryResult(later)
  {
  }

  /**
   * A stale entry of an invoice that has since disappeared stays in the
   * cache: the miss is not cached, and the old entry is not removed.
   */
  lemma MissKeepsStaleEntry(cache: Cache, id: string, now: int)
    requires id in cache && !Fresh(cache, id, now)
    ensures var r := FindByIdIn(cache, id, now, Missing);
      r.result == Ok(None) && id in r.cache && r.cache[id] == cache[id]
  {
  }

  /** Clearing one id leaves every other entry alone. */
  lemma ClearOneKeepsOthers(cache: Cache, id: string, other: string)
    requires id != "" && other != id && other in cache
    ensures other in ClearCacheIn(cache, Some(id)) && ClearCacheIn(cache, Some(id))[other] == cache[other]
    ensures id !in ClearCacheIn(cache, Some(id))
  {
  }

  /** The empty id is falsy, so `clearCache("")` empties the whole cache. */
  lemma EmptyIdClearsAll(cache: Cache)
    ensures ClearCacheIn(cache, Some("")) == map[]
  {
  }

  /**
   * What PDF generation and the existence check read: they clear the id's
   * entry first, so they always see the database's current answer.
   */
  lemma ClearedReadIsCurrent(cache: Cache, id: string, now: int, lookup: Lookup)
    ensures var r := FindByIdIn(ClearCacheIn(cache, Some(id)), id, now, lookup);
      r.queried && r.result == QueryResult(lookup)
  {
  }

  // ---------------------------------------------------------------------------
  // The cache object
  // ---------------------------------------------------------------------------

  class InvoiceCache {
    var cache: Cache

    constructor ()
      ensures cache == map[]
    {
      cache := map[];
    }

    method FindById(id: string, now: int, lookup: Lookup) returns (result: Result<Option<Invoice>, string>, queried: bool)
      modifies this
      ensures FindResult(cache, result, queried) == FindByIdIn(old(cache), id, now, lookup)
    {
      if id in cache && now - cache[id].timestamp < CacheTimeout {
        return Ok(Some(cache[id].data)), false;
      }
      queried := true;
      match lookup {
        case Found(invoice) =>
          cache := cache[id := Entry(invoice, now)];
          result := Ok(Some(invoice));
        case Missing =>
          result := Ok(None);
        case Failed(message) =>
          var text := if message.Some? then message.value else "Unknown error";
          result := Err("Failed to find invoice: " + text);
      }
    }

    method ClearCache(id: Option<string>)
      modifies this
      ensures cache == ClearCacheIn(old(cache), id)
    {
      if id.Some? && id.value != "" {
        cache := cache - {id.value};
      } else {
        cache := map[];
      }
    }

    method RefreshInvoice(id: string, now: int, lookup: Lookup) returns (result: Result<Option<Invoice>, string>, queried: bool)
      modifies this
      ensures FindResult(cache, result, queried) == RefreshInvoiceIn(old(cache), id, now, lookup)
    {
      ClearCache(Some(id));
      result, queried := FindById(id, now, lookup);
    }
  }

  // ---------------------------------------------------------------------------
  // File names
  // ---------------------------------------------------------------------------

  /** `${invoice.number || `draft-${invoiceId}`}.pdf`: an empty number counts as none. */
  function PdfFileName(number: Option<string>, invoiceId: string): (name: string)
    ensures |name| >= 4 && name[|name| - 4..] == ".pdf"
    ensures number.Some? && number.value != "" ==> name == number.value + ".pdf"
    ensures number.None? || number.value == "" ==> name == "draft-" + invoiceId + ".pdf"
  {
    (if number.Some? && number.value != "" then number.value else "draft-" + invoiceId) + ".pdf"
  }

  /**
   * Distinct invoices get distinct files: two numbered invoices share a file
   * only when they share a number, two drafts only when they share an id, and
   * an `INV-` number never collides with a draft's name.
   */
  lemma FileNamesDistinct(n1: Option<string>, id1: string, n2: Option<string>, id2: string)
    requires PdfFileName(n1, id1) == PdfFileName(n2, id2)
    requires n1.Some? && n1.value != "" ==> n1.value[..1] == "I"
    requires n2.Some? && n2.value != "" ==> n2.value[..1] == "I"
    ensures (n1.Some? && n1.value != "") <==> (n2.Some? && n2.value != "")
    ensures n1.Some? && n1.value != "" ==> n1.value == n2.value
    ensures n1.None? || n1.value == "" ==> id1 == id2
  {
    var a, b := PdfFileName(n1, id1), PdfFileName(n2, id2);
    var x := if n1.Some? && n1.value != "" then n1.value else "draft-" + id1;
    var y := if n2.Some? && n2.value != "" then n2.value else "draft-" + id2;
    assert a[..|a| - 4] == x && b[..|b| - 4] == y;
    assert x[0] == a[0] && y[0] == b[0];
    if !(n1.Some? && n1.value != "") && !(n2.Some? && n2.value != "") {
      assert id1 == x[6..] && id2 == y[6..];
    }
  }
}
