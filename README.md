# Invoice service and swap indexer, modelled in Dafny

This project models the core of a small back end with two parts.

**Invoice service.** Invoices move through a lifecycle:
- a draft is created and can be updated or deleted;
- issuing a draft gives it a yearly number `INV-YYYY-NNNNNN`;
- an issued invoice is either cancelled with a reason, or replaced by a new issued invoice that links back to it.

Around that lifecycle the model covers:
- money arithmetic: per-line rounding to cents and exact sums;
- request schemas;
- a paged, filtered listing;
- an invoice cache in front of PDF generation;
- a PDF performance monitor;
- the HTTP error handler.

**Swap indexer.** The indexer stores swap events and per-lane slot checkpoints in Postgres. Calls to flaky services go through a circuit breaker, and a health check combines component reports.

Each source file becomes one module. Code that changes state in place keeps that form:
- the circuit breaker, health check, PDF monitor, invoice cache, repository, service, Postgres adapter and sequence table are classes;
- each state-changing method is proved against a pure transition function on the old state;
- the properties are proved about those functions.

Loops in the source stay loops, with invariants:
- summing invoice totals;
- copying component metrics;
- tallying finished PDF generations.

What the model replaces:
- The database is a map held by the repository. Invoice ids are natural numbers handed out by a counter, not UUIDs.
- Every reading of the clock (`Date.now()`, `new Date()`, the current year) is a parameter.
- Outcomes the model cannot compute are parameters:
  - the function a circuit breaker runs;
  - a database ping;
  - a Prisma lookup.
- Decimal amounts are `real`s. The products and sums before the final rounding to cents are exact, where decimal.js rounds them to 20 significant digits (see "## Left out").
- A JavaScript `Map`'s insertion order is kept as a sequence of keys.

## Model

| member | source | states |
|---|---|---|
| CircuitBreakers.ConfigOf | src/utils/circuitBreaker.ts:48-53 | name is taken as given; thresholds default to 5 failures, 30000 ms reset timeout and 2 successes when absent |
| CircuitBreakers.OpenedFrom | src/utils/circuitBreaker.ts:126-135 | opening an open breaker changes nothing; otherwise state becomes OPEN and the success count is zeroed, all else kept |
| CircuitBreakers.HalfOpenedFrom | src/utils/circuitBreaker.ts:140-149 | half-opening is a no-op when already half-open; otherwise state HALF_OPEN and success count zeroed |
| CircuitBreakers.ClosedFrom | src/utils/circuitBreaker.ts:154-164 | closing is a no-op when closed; otherwise state CLOSED with both counters zeroed |
| CircuitBreakers.SuccessFrom | src/utils/circuitBreaker.ts:90-100 | closed: failure count reset; open: nothing changes; half-open: success count +1, closing once it reaches the success threshold; totals never change |
| CircuitBreakers.FailureFrom | src/utils/circuitBreaker.ts:105-121 | total failures +1 and last failure time = now; half-open trips to OPEN; closed counts the failure and opens exactly when the count reaches the threshold; open stays open |
| CircuitBreakers.ExecuteFrom | src/utils/circuitBreaker.ts:58-77 | every call counts as an execution; the call is rejected without running exactly when open and the reset timeout has not elapsed; otherwise the function's value or error is passed through and recorded as a success or failure; once the timeout has elapsed an open breaker first moves to HALF_OPEN with no successes and then runs the call: a failed trial reopens it, a successful one counts one success, closing at once when the success threshold is 1 or less; from CLOSED or HALF_OPEN the call runs and the metrics are `SuccessFrom` or `FailureFrom` of the counted state, so a closed success clears the failure count and a half-open failure reopens |
| CircuitBreakers.ResetFrom | src/utils/circuitBreaker.ts:169-177 | manual reset: CLOSED, counters and last failure time zero, totals kept |
| CircuitBreakers.ExecutePreservesInv | src/utils/circuitBreaker.ts:58-121 | the counters stay within their thresholds and failures never exceed executions, across any call |
| CircuitBreakers.InitialAndResetSatisfyInv | src/utils/circuitBreaker.ts:36-41 | the initial metrics satisfy the invariant, and a reset keeps it |
| CircuitBreakers.ClosedFailures | src/utils/circuitBreaker.ts:113-118 | fewer consecutive failures than the threshold leave a closed breaker closed, with the failure count grown by exactly that many |
| CircuitBreakers.ThresholdFailuresTrip | src/utils/circuitBreaker.ts:113-118 | from a fresh closed breaker, threshold-1 failures keep it closed and the threshold-th failure opens it |
| CircuitBreakers.RunSnoc | src/utils/circuitBreaker.ts:58-77 | running a sequence of calls and then one more equals executing that call on the state the sequence left |
| CircuitBreakers.HalfOpenSuccesses | src/utils/circuitBreaker.ts:91-95 | below the success threshold, successive successes keep the breaker half-open and count each one |
| CircuitBreakers.ThresholdSuccessesClose | src/utils/circuitBreaker.ts:91-95 | from half-open, threshold-1 successes stay half-open and the threshold-th closes with both counters zero |
| CircuitBreakers.OpenRejectsUntilTimeout | src/utils/circuitBreaker.ts:61-66 | while the reset timeout has not elapsed an open breaker rejects every call: only the execution total moves |
| CircuitBreakers.FailureRate | src/utils/circuitBreaker.ts:210-213 | 0 with no executions; a percentage between 0 and 100 whenever failures do not exceed executions |
| CircuitBreakers.CircuitBreaker.constructor | src/utils/circuitBreaker.ts:36-53 | starts closed with zero counters and the configuration of `ConfigOf` |
| CircuitBreakers.CircuitBreaker.Execute | src/utils/circuitBreaker.ts:58-77 | new metrics and response are those of `ExecuteFrom` on the old metrics; the invariant is kept |
| CircuitBreakers.CircuitBreaker.ShouldAttemptReset | src/utils/circuitBreaker.ts:82-85 | true exactly when at least the reset timeout has passed since the last failure |
| CircuitBreakers.CircuitBreaker.OnSuccess | src/utils/circuitBreaker.ts:90-100 | metrics become `SuccessFrom` of the old ones |
| CircuitBreakers.CircuitBreaker.OnFailure | src/utils/circuitBreaker.ts:105-121 | metrics become `FailureFrom` of the old ones |
| CircuitBreakers.CircuitBreaker.ToOpen | src/utils/circuitBreaker.ts:126-135 | metrics become `OpenedFrom` of the old ones |
| CircuitBreakers.CircuitBreaker.ToHalfOpen | src/utils/circuitBreaker.ts:140-149 | metrics become `HalfOpenedFrom` of the old ones |
| CircuitBreakers.CircuitBreaker.ToClose | src/utils/circuitBreaker.ts:154-164 | metrics become `ClosedFrom` of the old ones |
| CircuitBreakers.CircuitBreaker.Reset | src/utils/circuitBreaker.ts:169-177 | metrics become `ResetFrom` of the old ones; the invariant is kept |
| CircuitBreakers.CircuitBreaker.GetMetrics | src/utils/circuitBreaker.ts:196-205 | a snapshot of the six mutable fields, read without side effects |
| CircuitBreakers.CircuitBreaker.GetState | src/utils/circuitBreaker.ts:182-184 | the current state |
| CircuitBreakers.CircuitBreaker.GetFailureRate | src/utils/circuitBreaker.ts:210-213 | a percentage in [0, 100], 0 before any execution |
| PgAdapters.RowOf | src/infra/db/pg.adapter.ts:19-30 | the stored row keeps signature, slot and route; the amounts are decimal strings that parse back to the event's amounts; a missing raw payload is stored as `null`; the user, both tokens and the block time are bound as given, and a present payload is stored as given |
| PgAdapters.InsertSwap | src/infra/db/pg.adapter.ts:13-18 | `ON CONFLICT DO NOTHING`: the signature is present afterwards, an existing row is untouched, a new one is the event's row, other rows unchanged |
| PgAdapters.InsertSwapIdempotent | src/infra/db/pg.adapter.ts:17 | inserting the same event twice equals inserting it once |
| PgAdapters.FirstWriteWins | src/infra/db/pg.adapter.ts:17 | of two events with one signature, the first one's row is kept |
| PgAdapters.MergeCheckpoint | src/infra/db/pg.adapter.ts:38-46 | a new lane gets the given fields; an existing lane keeps each field the patch leaves out (`COALESCE`); other lanes unchanged |
| PgAdapters.MergeCheckpointIdempotent | src/infra/db/pg.adapter.ts:43 | applying the same checkpoint patch twice equals applying it once |
| PgAdapters.SlotMayMoveBackwards | src/infra/db/pg.adapter.ts:43 | nothing keeps the slot monotone: writing 100 over 200 stores 100 |
| PgAdapters.PgAdapter.constructor | src/infra/db/pg.adapter.ts:7 | both tables start empty |
| PgAdapters.PgAdapter.UpsertSwap | src/infra/db/pg.adapter.ts:13-31 | the swap table becomes `InsertSwap` of the old one; checkpoints untouched |
| PgAdapters.PgAdapter.GetCheckpoint | src/infra/db/pg.adapter.ts:33-36 | the lane's row when present, `null` otherwise |
| PgAdapters.PgAdapter.SetCheckpoint | src/infra/db/pg.adapter.ts:38-46 | the checkpoint table becomes `MergeCheckpoint` of the old one; swaps untouched |
| SlotCheckpoints.LaneId | src/app/checkpoint.ts:3 | the two lanes are the checkpoint ids `realtime` and `backfill` |
| SlotCheckpoints.SlotOf | src/app/checkpoint.ts:3-6 | the lane's last slot, `null` when the lane has no row or no slot |
| SlotCheckpoints.GetSlotCheckpoint | src/app/checkpoint.ts:3-6 | reads the adapter's current table through `SlotOf` |
| SlotCheckpoints.SetSlotCheckpoint | src/app/checkpoint.ts:8-10 | merges a slot-only patch into the lane's row; swaps untouched |
| SlotCheckpoints.SetThenGet | src/app/checkpoint.ts:3-10 | reading a lane right after setting its slot gives that slot |
| SlotCheckpoints.SetKeepsSignature | src/app/checkpoint.ts:8-10 | setting the slot keeps the lane's stored signature |
| SlotCheckpoints.LanesIndependent | src/app/checkpoint.ts:3-10 | setting one lane leaves the other lane's slot as it was |
| SlotCheckpoints.ZeroSlotIsNotNull | src/app/checkpoint.ts:5 | slot 0 is read back as 0, not as `null` (`??`, not `\|\|`) |
| HealthChecks.DetermineSystemHealth | src/utils/healthCheck.ts:123-137 | unhealthy iff some component reports `failed`/`unhealthy`; degraded iff none does and some reports `stopped`/`degraded`; healthy otherwise |
| HealthChecks.StatuslessComponentIgnored | src/utils/healthCheck.ts:124-126 | a component whose status is absent or empty does not change the verdict |
| HealthChecks.NeutralComponentIgnored | src/utils/healthCheck.ts:128-136 | a component with any other status word does not change the verdict |
| HealthChecks.DatabaseEntry | src/utils/healthCheck.ts:101-115 | the database component reports `healthy` exactly when the ping succeeded |
| HealthChecks.Collected | src/utils/healthCheck.ts:92-118 | every registered component plus `database`, which overrides a registered one of that name |
| HealthChecks.FailedPingIsUnhealthy | src/utils/healthCheck.ts:108-115 | a failed ping makes the system unhealthy whatever the components say |
| HealthChecks.SuccessfulPingDefersToComponents | src/utils/healthCheck.ts:101-107 | with a successful ping the verdict is the registered components' verdict |
| HealthChecks.HealthCheck.constructor | src/utils/healthCheck.ts:23-26 | no metrics, status healthy, last check 0, start time now |
| HealthChecks.HealthCheck.RegisterMetrics | src/utils/healthCheck.ts:40-42 | the component's metrics are stored, stamped with now; status kept |
| HealthChecks.HealthCheck.UpdateStatus | src/utils/healthCheck.ts:47-53 | status becomes the given one and last check becomes now |
| HealthChecks.HealthCheck.CollectComponentMetrics | src/utils/healthCheck.ts:92-118 | the loop returns exactly `Collected` of the registered metrics |
| HealthChecks.HealthCheck.CheckHealth | src/utils/healthCheck.ts:58-87 | on success the status becomes the verdict over the collected components and is reported with them; if collection throws, the status becomes unhealthy and the registered metrics are reported; uptime is now minus start |
| HealthChecks.HealthCheck.GetStatus | src/utils/healthCheck.ts:142-144 | the stored status |
| HealthChecks.HealthCheck.GetUptime | src/utils/healthCheck.ts:149-151 | now minus the start time |
| Money.Round2 | src/utils/money.ts:48-50 | a whole number of cents within half a cent of the amount; a tie goes away from zero; non-negative stays non-negative |
| Money.RoundUpHalf | src/utils/money.ts:48-50 | half-up rounding of a non-negative amount lands on cents within (−0.005, 0.005] |
| Money.Round2OfCents | src/utils/money.ts:48-50 | rounding an amount already in cents leaves it unchanged |
| Money.CentsSum | src/utils/money.ts:57-73 | a sum of cent amounts is in cents |
| Money.CalculateLineItem | src/utils/money.ts:29-52 | keeps description, quantity, price and rate; subtotal, tax and total are `Round2` (half-up to cents) of quantity×price, its tax at rate %, and their sum, so each lies within half a cent of the exact amount |
| Money.ZeroLine | tests/money.test.ts:55-68 | a zero quantity or a zero price gives an all-zero line |
| Money.HalfUpExample | tests/money.test.ts:80-82 | 3 × 0.1 at 5% gives 0.30, tax 0.015 → 0.02 and total 0.315 → 0.32 |
| Money.TotalIsNotSumOfRoundedParts | src/utils/money.ts:41-50 | the line total is rounded from the exact sum, so it can differ from the sum of the rounded parts (0.00 + 0.00 vs 0.01) |
| Money.SumsAreCents | src/utils/money.ts:57-73 | summing lines that are in cents gives a subtotal and tax total in cents |
| Money.TotalsAreExactSums | src/utils/money.ts:57-73 | invoice totals are the exact sums of the line amounts, with grand total = subtotal + tax total, all in cents |
| Money.CalculateInvoiceTotals | src/utils/money.ts:57-73 | the loop returns the sums of line subtotals and taxes and their sum |
| Money.LinesOf | src/utils/money.ts:78-89 | one calculated line per input, in order, each in cents |
| Money.InvoiceTotals | src/utils/money.ts:78-89 | totals of the calculated lines, grand total = subtotal + tax total |
| Money.CalculateInvoiceFromItems | src/utils/money.ts:78-89 | returns the calculated lines and their totals |
| Money.EmptyInvoice | tests/money.test.ts:135-142 | no items give all-zero totals |
| Money.ExactDecimalSum | tests/money.test.ts:232-251 | 0.1 + 0.2 sums to exactly 0.3 |
| Numbering.Upserted | src/libs/numbering.ts:13-22 | a year seen before has its counter incremented; a new year starts at 1; other years unchanged |
| Numbering.FormatInvoiceNumber | src/libs/numbering.ts:25 | `INV-` + year + `-` + the counter's digits left-padded with zeros to at least 6 |
| Numbering.ParseInvoiceNumber | src/libs/numbering.ts:34-44 | accepts exactly `INV-dddd-dddddd` and returns the year and sequence read from the digits |
| Numbering.FormatThenParse | src/libs/numbering.ts:25-43 | a four-digit year and a counter below 10^6 format to 15 characters and parse back to the same pair |
| Numbering.ParseThenFormat | src/libs/numbering.ts:25-43 | a well-formed number whose year has no leading zero is re-formatted to itself |
| Numbering.FormatInjective | src/libs/numbering.ts:25 | in that range, distinct year/counter pairs give distinct numbers |
| Numbering.LargeSequenceNotTruncated | tests/numbering.test.ts:74-88 | a counter of 10^6 or more is not truncated: the number is longer than 15 and no longer parses |
| Numbering.SevenDigitSequence | tests/numbering.test.ts:74-88 | the counter 1000000 in 2024 formats as `INV-2024-1000000` |
| Numbering.InvoiceNumberSeq.Upsert | src/libs/numbering.ts:13-22 | the table becomes `Upserted` of the old one and the returned value is the year's new counter |
| Numbering.GenerateInvoiceNumber | src/libs/numbering.ts:8-29 | bumps the year's counter and returns the number formatted from the new counter |
| Numbering.SequenceCountsCalls | tests/numbering.test.ts:23-33 | after k calls in a fresh year its counter is k |
| Numbering.YearsIndependent | tests/numbering.test.ts:162-186 | calls for one year leave every other year's counter as it was |
| Numbering.FirstNumberOfYear | tests/numbering.test.ts:23-33 | the first number of 2025 is `INV-2025-000001` |
| InvoiceSchemas.ParseStatus | src/schemas/invoice.schema.ts:58 | accepts exactly `draft`, `issued`, `canceled` and returns the status with that name |
| InvoiceSchemas.CreateIsValidUpdate | src/schemas/invoice.schema.ts:12-41 | a valid create input is a valid update; an empty item list fails create but passes update |
| InvoiceSchemas.UpdateFieldsOptional | src/schemas/invoice.schema.ts:28-41 | every update field may be omitted, items may be empty, but a present buyer name must be non-empty |
| InvoiceSchemas.WhitespaceReasonPassesSchema | src/schemas/invoice.schema.ts:44-46 | a reason of only whitespace passes the schema (length ≥ 1) although it trims to nothing |
| InvoiceSchemas.ValidItemNonNegative | src/schemas/invoice.schema.ts:4-9 | a schema-valid item yields non-negative line amounts |
| InvoiceSchemas.ValidItemsNonNegativeTotals | src/schemas/invoice.schema.ts:4-25 | schema-valid items yield non-negative invoice totals |
| InvoiceSchemas.SumsNonNegative | src/utils/money.ts:57-73 | sums of non-negative line amounts are non-negative |
| InvoiceSchemas.DigitPrefix | src/schemas/invoice.schema.ts:53 | the longest run of leading digits |
| InvoiceSchemas.JsParseInt | src/schemas/invoice.schema.ts:53 | `parseInt(val, 10)`: skips leading whitespace and a sign, reads the leading digits, NaN when there are none |
| InvoiceSchemas.JsParseIntOfRendering | src/schemas/invoice.schema.ts:53 | a rendered natural number parses back to itself |
| InvoiceSchemas.JsParseIntStopsAtNonDigit | src/schemas/invoice.schema.ts:53 | `12abc` parses as 12 |
| InvoiceSchemas.JsParseIntNoDigit | src/schemas/invoice.schema.ts:53 | `abc` parses as NaN |
| InvoiceSchemas.NumberOr | src/schemas/invoice.schema.ts:50-57 | a missing or empty value gives the default; any other is `parseInt` of it |
| InvoiceSchemas.ParseListQuery | src/schemas/invoice.schema.ts:49-71 | fails exactly on a status outside the enum; page defaults to 1 and limit to 10; text fields pass through; an absent status stays absent, and the search term, buyer name and both issue-date bounds pass through |
| InvoiceSchemas.ListQueryDefaults | src/schemas/invoice.schema.ts:50-57 | with page and limit missing or empty, page 1 of 10 is asked for |
| InvoiceRepo.NewRow | src/repositories/invoice.repo.ts:17-25 | a new row carries every column of the given data (number, issue date, buyer and seller fields, due date, notes, items and all three totals), the given id, status and creation time, with no cancellation and no replacement links |
| InvoiceRepo.Patched | src/repositories/invoice.repo.ts:33-35 | each column the update gives (buyer and seller fields, due date, notes, items, all three totals) is replaced and each it omits is kept; id, status, number, issue date, cancellation, links and creation time never change |
| InvoiceRepo.EmptyPatchKeepsRow | src/repositories/invoice.repo.ts:33-35 | an update with no fields leaves the row unchanged |
| InvoiceRepo.CreateDraftIn | src/repositories/invoice.repo.ts:17-25 | the stored row is `NewRow` of the given data under a fresh id, forced to draft; nothing else changes; rows stay keyed by their ids |
| InvoiceRepo.UpdateDraftIn | src/repositories/invoice.repo.ts:27-42 | fails with ONLY_UPDATE_DRAFT exactly when the row is missing or not a draft, changing nothing; otherwise stores the patched draft |
| InvoiceRepo.DeleteDraftIn | src/repositories/invoice.repo.ts:44-54 | fails with ONLY_DELETE_DRAFT exactly when the row is missing or not a draft; otherwise removes it and returns true |
| InvoiceRepo.MarkIssuedIn | src/repositories/invoice.repo.ts:105-119 | a missing row fails with Prisma P2025; otherwise the row becomes issued with the given number and date, other columns kept |
| InvoiceRepo.MarkCanceledIn | src/repositories/invoice.repo.ts:121-135 | a missing row fails with P2025; otherwise the row becomes cancelled with the reason and time, other columns kept |
| InvoiceRepo.CreateReplacementIn | src/repositories/invoice.repo.ts:137-172 | a missing original fails with nothing written (one transaction); otherwise a new issued row pointing back to the original is created from the given data and the original points forward to it; rows stay keyed by their ids |
| InvoiceRepo.ReplacementLinksBothWays | src/repositories/invoice.repo.ts:144-168 | after a replacement the new row's `replacementOfId` is the original and the original's `replacedById` is the new row, both stored |
| InvoiceRepo.NextInvoiceNumberIn | src/repositories/invoice.repo.ts:174-189 | bumps the year's counter and returns `INV-year-` with the counter padded to 6 digits |
| InvoiceRepo.MatchingBelowExact | src/repositories/invoice.repo.ts:86-93 | the rows selected are exactly the stored rows matching the filter, each at most once |
| InvoiceRepo.StatusRank | src/repositories/invoice.repo.ts:91 | status order draft < issued < canceled |
| InvoiceRepo.InsertRow | src/repositories/invoice.repo.ts:91 | inserting into an ordered list keeps it ordered and adds exactly that row |
| InvoiceRepo.SortRows | src/repositories/invoice.repo.ts:91 | the result is ordered by status, then newest first, and is a permutation of the input |
| InvoiceRepo.Listing | src/repositories/invoice.repo.ts:86-93 | the matching rows in list order |
| InvoiceRepo.ListingExact | src/repositories/invoice.repo.ts:86-93 | an invoice is listed iff it is stored and matches the filter, and then exactly once |
| InvoiceRepo.CeilDiv | src/repositories/invoice.repo.ts:101 | `Math.ceil(total / limit)`: the least page count that covers the total |
| InvoiceRepo.Window | src/repositories/invoice.repo.ts:89-90 | `skip`/`take`: the rows from position skip, at most take of them |
| InvoiceRepo.AdjacentWindows | src/repositories/invoice.repo.ts:89-90 | two adjacent windows of one size concatenate into the window of twice that size |
| InvoiceRepo.NextPageSkip | src/repositories/invoice.repo.ts:83 | the next page skips exactly one limit more |
| InvoiceRepo.ListIn | src/repositories/invoice.repo.ts:78-103 | page 1 and limit 10 by default; data is the page's window of the ordered matches; total counts all matches; totalPages is the ceiling of total/limit; a page or limit below 1 is refused |
| InvoiceRepo.ConsecutivePages | src/repositories/invoice.repo.ts:83-90 | page p followed by page p+1 is the window of two pages starting at page p |
| InvoiceRepo.PageIsWindow | src/repositories/invoice.repo.ts:83-90 | a valid page is the window at (page−1)×limit |
| InvoiceRepo.PageRowsMatch | src/repositories/invoice.repo.ts:86-93 | every row on a page is a stored invoice that matches the filter |
| InvoiceRepo.InvoiceRepository.constructor | src/repositories/invoice.repo.ts:16 | no invoices, id counter at 0, the given sequence table |
| InvoiceRepo.InvoiceRepository.FindById | src/repositories/invoice.repo.ts:56-65 | the stored row for the id, `null` when absent |
| InvoiceRepo.InvoiceRepository.CreateDraft | src/repositories/invoice.repo.ts:17-25 | new state and row are those of `CreateDraftIn`; rows stay keyed by their ids |
| InvoiceRepo.InvoiceRepository.UpdateDraft | src/repositories/invoice.repo.ts:27-42 | new state and result are those of `UpdateDraftIn`; rows stay keyed by their ids |
| InvoiceRepo.InvoiceRepository.DeleteDraft | src/repositories/invoice.repo.ts:44-54 | new state and result are those of `DeleteDraftIn`; rows stay keyed by their ids |
| InvoiceRepo.InvoiceRepository.List | src/repositories/invoice.repo.ts:78-103 | total counts every match and a page holds at most limit rows |
| InvoiceRepo.InvoiceRepository.MarkIssued | src/repositories/invoice.repo.ts:105-119 | new state and result are those of `MarkIssuedIn`; rows stay keyed by their ids |
| InvoiceRepo.InvoiceRepository.MarkCanceled | src/repositories/invoice.repo.ts:121-135 | new state and result are those of `MarkCanceledIn`; rows stay keyed by their ids |
| InvoiceRepo.InvoiceRepository.CreateReplacement | src/repositories/invoice.repo.ts:137-172 | new state and result are those of `CreateReplacementIn`; rows stay keyed by their ids |
| InvoiceRepo.InvoiceRepository.GetNextInvoiceNumber | src/repositories/invoice.repo.ts:174-189 | new state and number are those of `NextInvoiceNumberIn`; rows stay keyed by their ids |
| InvoiceServices.DraftData | src/services/invoice.service.ts:57-73 | the row data of a draft: every input field as given, calculated lines and their totals, no number and no issue date |
| InvoiceServices.UpdatePatch | src/services/invoice.service.ts:89-108 | given items, the patch replaces all lines and recomputes the totals; without items it leaves lines and totals alone; every other field of the body passes through as given |
| InvoiceServices.CreateDraftStep | src/services/invoice.service.ts:57-74 | stores a new draft with the next id whose lines, subtotal, tax total and grand total are those `calculateInvoiceFromItems` gives for the items, grand total = subtotal + tax, the body's other fields as given, no number, cancellation or links |
| InvoiceServices.UpdateDraftStep | src/services/invoice.service.ts:79-109 | missing: NOT_EXISTS; not a draft: ONLY_UPDATE_DRAFT, nothing changed; otherwise the patched draft is stored; with items its lines and all three totals are those of the new items, without items its lines and all three totals are the old ones |
| InvoiceServices.DeleteDraftStep | src/services/invoice.service.ts:114-125 | missing: NOT_EXISTS; not a draft: ONLY_DELETE_DRAFT; otherwise the row is removed |
| InvoiceServices.IssueStep | src/services/invoice.service.ts:130-150 | missing: NOT_EXISTS; not a draft: ONLY_ISSUE_DRAFT; no buyer name or no items: MISSING_REQUIRED_DATA; otherwise issued with the year's next number and today's date |
| InvoiceServices.CancelStep | src/services/invoice.service.ts:155-174 | a blank or whitespace reason, a missing row, a non-issued row and a replaced row are refused in that order; success exactly otherwise, storing the cancelled row |
| InvoiceServices.ReplacementData | src/services/invoice.service.ts:199-219 | the replacement carries the new number and issue date and the recalculated lines and totals |
| InvoiceServices.ReplaceStep | src/services/invoice.service.ts:179-220 | refuses a missing, non-issued or already-replaced original; succeeds exactly otherwise, storing a new issued invoice with a fresh number, the lines and all three totals of its items, linked both ways to the original; the new row takes every other body field as given, has no cancellation and is created at now |
| InvoiceServices.EmptyDbConsistent | src/services/invoice.service.ts:57-220 | the empty database satisfies the lifecycle invariant |
| InvoiceServices.CreateDraftPreserves | src/services/invoice.service.ts:57-74 | creating a draft keeps the invariant: drafts have no number, issued and cancelled rows do, and replacement links are mutual |
| InvoiceServices.UpdateDraftPreserves | src/services/invoice.service.ts:79-109 | updating a draft keeps the invariant |
| InvoiceServices.RowSwapPreserves | src/services/invoice.service.ts:130-174 | replacing one row by a consistent row with the same links keeps the invariant |
| InvoiceServices.DeleteDraftPreserves | src/services/invoice.service.ts:114-125 | deleting a draft keeps the invariant (a draft is never linked) |
| InvoiceServices.IssuePreserves | src/services/invoice.service.ts:130-150 | issuing keeps the invariant |
| InvoiceServices.CancelPreserves | src/services/invoice.service.ts:155-174 | cancelling keeps the invariant |
| InvoiceServices.ReplacePreserves | src/services/invoice.service.ts:179-220 | replacing keeps the invariant |
| InvoiceServices.PairedConsistent | src/repositories/invoice.repo.ts:144-168 | adding a replacement and linking the original to it keeps the invariant |
| InvoiceServices.CreateDraftMovesForward | src/services/invoice.service.ts:57-74 | no existing invoice moves back in status, loses its number or loses a replacement link |
| InvoiceServices.UpdateDraftMovesForward | src/services/invoice.service.ts:79-109 | updating moves nothing backwards |
| InvoiceServices.DeleteDraftMovesForward | src/services/invoice.service.ts:114-125 | deleting removes only a draft and moves nothing backwards |
| InvoiceServices.IssueMovesForward | src/services/invoice.service.ts:130-150 | issuing moves only forwards (draft → issued) |
| InvoiceServices.CancelMovesForward | src/services/invoice.service.ts:155-174 | cancelling moves only forwards (issued → canceled) |
| InvoiceServices.ReplaceMovesForward | src/services/invoice.service.ts:179-220 | replacing moves only forwards |
| InvoiceServices.ReplacedIsFinal | src/services/invoice.service.ts:165-197 | a replaced invoice is issued and every lifecycle operation on it is refused without change |
| InvoiceServices.WhitespaceReasonRefused | src/services/invoice.service.ts:156-158 | a whitespace-only reason passes the schema but the service refuses it, changing nothing |
| InvoiceServices.BuildWhere | src/services/invoice.service.ts:225-273 | status copied; a non-empty buyer name and the issue-date bounds become filters; a trimmed search term of 3 or more characters searches buyer name or number, a shorter one the number only |
| InvoiceServices.SearchTermSemantics | src/services/invoice.service.ts:256-270 | a row matches the built filter iff it matches the field filters and the search condition chosen by the trimmed term's length |
| InvoiceServices.BlankSearchIgnored | src/services/invoice.service.ts:256 | a missing or whitespace-only search term filters nothing |
| InvoiceServices.ShortSearchSkipsDrafts | src/services/invoice.service.ts:266-269 | a short search term never matches a draft, which has no number |
| InvoiceServices.InvoiceService.constructor | src/services/invoice.service.ts:50-52 | the service holds the given repository; given a well-keyed, consistent repository, the service starts valid |
| InvoiceServices.InvoiceService.CreateDraft | src/services/invoice.service.ts:57-74 | new state and result are those of `CreateDraftStep`; the database stays consistent (links paired, drafts unnumbered) |
| InvoiceServices.InvoiceService.UpdateDraft | src/services/invoice.service.ts:79-109 | new state and result are those of `UpdateDraftStep`; the database stays consistent (links paired, drafts unnumbered) |
| InvoiceServices.InvoiceService.DeleteDraft | src/services/invoice.service.ts:114-125 | new state and result are those of `DeleteDraftStep`; the database stays consistent (links paired, drafts unnumbered) |
| InvoiceServices.InvoiceService.Issue | src/services/invoice.service.ts:130-150 | new state and result are those of `IssueStep`; the database stays consistent (links paired, drafts unnumbered) |
| InvoiceServices.InvoiceService.Cancel | src/services/invoice.service.ts:155-174 | new state and result are those of `CancelStep`; the database stays consistent (links paired, drafts unnumbered) |
| InvoiceServices.InvoiceService.Replace | src/services/invoice.service.ts:179-220 | new state and result are those of `ReplaceStep`; the database stays consistent (links paired, drafts unnumbered) |
| InvoiceServices.InvoiceService.List | src/services/invoice.service.ts:225-273 | the repository listing under `BuildWhere` of the filter |
| PdfMonitors.SizeIsKeyCount | src/libs/pdf-monitor.ts:16 | the number of metrics equals the number of keys in insertion order |
| PdfMonitors.TrackingId | src/libs/pdf-monitor.ts:27 | the tracking id is the invoice id, a dash, then the time |
| PdfMonitors.StartTrackingIn | src/libs/pdf-monitor.ts:26-42 | stores fresh metrics under the tracking id and returns it; beyond 1000 entries the oldest is evicted |
| PdfMonitors.StartTrackingBounded | src/libs/pdf-monitor.ts:34-39 | starting keeps the history valid and at most 1000 entries |
| PdfMonitors.StartExisting | src/libs/pdf-monitor.ts:29-32 | restarting an existing tracking id overwrites its metrics in place |
| PdfMonitors.StartNew | src/libs/pdf-monitor.ts:29-32 | below the limit a new id is appended with fresh metrics |
| PdfMonitors.StartEvicting | src/libs/pdf-monitor.ts:34-39 | at the limit a new id is appended and the oldest removed, so the size stays 1000 |
| PdfMonitors.EvictsOldest | src/libs/pdf-monitor.ts:35-37 | the entry evicted is the first inserted |
| PdfMonitors.RecordStepIn | src/libs/pdf-monitor.ts:44-50 | an unknown id changes nothing; otherwise only that entry records the step |
| PdfMonitors.EndTrackingIn | src/libs/pdf-monitor.ts:52-66 | unknown id: `null` and no change; otherwise end time and duration set, a non-empty error recorded, the updated metrics returned |
| PdfMonitors.RecordAndEndKeepValid | src/libs/pdf-monitor.ts:44-66 | recording and ending keep the history valid and its size |
| PdfMonitors.Finished | src/libs/pdf-monitor.ts:89 | the metrics with a duration, in insertion order |
| PdfMonitors.RoundDiv | src/libs/pdf-monitor.ts:105-107 | `Math.round(p / q)`: the nearest integer, ties upwards |
| PdfMonitors.RoundDivPercentBounds | src/libs/pdf-monitor.ts:106-107 | a rounded percentage of a part of a whole is between 0 and 100 |
| PdfMonitors.Averages | src/libs/pdf-monitor.ts:83-110 | all zero with no finished generations; otherwise the rounded mean duration, hit rate and error rate over the finished ones |
| PdfMonitors.AveragesBounds | src/libs/pdf-monitor.ts:83-110 | the rates are percentages in [0, 100] and the count is the number of finished generations |
| PdfMonitors.EndingCountsOnce | src/libs/pdf-monitor.ts:52-58 | ending an unfinished tracked generation adds exactly one to the finished count |
| PdfMonitors.FinishedIgnoresOthers | src/libs/pdf-monitor.ts:89 | metrics under keys not in the history do not count |
| PdfMonitors.AppendFigures | src/libs/pdf-monitor.ts:100-102 | the total duration, hit count and error count add up entry by entry |
| PdfMonitors.PdfPerformanceMonitor.constructor | src/libs/pdf-monitor.ts:16 | empty history; the history keeps each key once, in insertion order, and at most 1000 entries |
| PdfMonitors.PdfPerformanceMonitor.StartTracking | src/libs/pdf-monitor.ts:26-42 | new state and id are those of `StartTrackingIn`; the history keeps each key once, in insertion order, and at most 1000 entries |
| PdfMonitors.PdfPerformanceMonitor.RecordStep | src/libs/pdf-monitor.ts:44-50 | new state is that of `RecordStepIn`; the history keeps each key once, in insertion order, and at most 1000 entries |
| PdfMonitors.PdfPerformanceMonitor.EndTracking | src/libs/pdf-monitor.ts:52-66 | new state and result are those of `EndTrackingIn`; the history keeps each key once, in insertion order, and at most 1000 entries |
| PdfMonitors.PdfPerformanceMonitor.GetAverageMetrics | src/libs/pdf-monitor.ts:83-110 | returns `Averages` of the finished generations |
| PdfMonitors.PdfPerformanceMonitor.TallyFinished | src/libs/pdf-monitor.ts:89-102 | the loop counts the finished generations, sums their durations and counts hits and errors |
| PdfMonitors.PdfPerformanceMonitor.ClearMetrics | src/libs/pdf-monitor.ts:112-114 | the history is emptied; the history keeps each key once, in insertion order, and at most 1000 entries |
| PdfMonitors.ClearedAveragesZero | src/libs/pdf-monitor.ts:91-97 | after clearing, every average is zero |
| PdfCaches.QueryResult | src/libs/pdf.ts:123-141 | a found row, `null` for none, and a failure wrapped as `Failed to find invoice: …` |
| PdfCaches.FindByIdIn | src/libs/pdf.ts:115-143 | an entry younger than 5 minutes answers without a query; otherwise the database answers and only a found row is cached, stamped now |
| PdfCaches.ClearCacheIn | src/libs/pdf.ts:145-151 | a non-empty id removes its entry; no id or the empty id clears everything |
| PdfCaches.RefreshInvoiceIn | src/libs/pdf.ts:156-159 | always queries, and a found row is cached fresh |
| PdfCaches.CachedForTimeout | src/libs/pdf.ts:119-121 | a fetched invoice is served from the cache, whatever the database now says, for 5 minutes |
| PdfCaches.ExpiresAfterTimeout | src/libs/pdf.ts:119-136 | after 5 minutes the database is asked again |
| PdfCaches.MissKeepsStaleEntry | src/libs/pdf.ts:135-139 | a miss is not cached and does not evict the stale entry |
| PdfCaches.ClearOneKeepsOthers | src/libs/pdf.ts:145-147 | clearing one id leaves every other entry |
| PdfCaches.EmptyIdClearsAll | src/libs/pdf.ts:146-149 | the empty id is falsy and clears the whole cache |
| PdfCaches.ClearedReadIsCurrent | src/libs/pdf.ts:224-228 | reading after clearing the id always gets the database's current answer |
| PdfCaches.InvoiceCache.constructor | src/libs/pdf.ts:112 | empty cache |
| PdfCaches.InvoiceCache.FindById | src/libs/pdf.ts:115-143 | new cache and answer are those of `FindByIdIn` |
| PdfCaches.InvoiceCache.ClearCache | src/libs/pdf.ts:145-151 | new cache is `ClearCacheIn` of the old one |
| PdfCaches.InvoiceCache.RefreshInvoice | src/libs/pdf.ts:156-159 | new cache and answer are those of `RefreshInvoiceIn` |
| PdfCaches.PdfFileName | src/libs/pdf.ts:236 | the number plus `.pdf`, or `draft-<id>.pdf` when the number is missing or empty |
| PdfCaches.FileNamesDistinct | src/libs/pdf.ts:319 | two invoices share a file only when they share a number, or are both unnumbered with the same id |
| ErrorHandlers.NotFoundFallback | src/app.ts:33-38 | an unmatched route gets 404 |
| ErrorHandlers.HandleError | src/app.ts:40-78 | a value that can send itself sends its own status; otherwise 409, 404, 400 or 500 with an error tag |
| ErrorHandlers.PrismaCodes | src/app.ts:47-62 | P2002 gives 409 DUPLICATE_ERROR and P2025 gives 404 NOT_FOUND, whatever the message |
| ErrorHandlers.OtherErrors | src/app.ts:65-77 | any other Error is a 400 BUSINESS_ERROR iff its message is non-empty, else a 500 |
| ErrorHandlers.NonErrorsAreInternal | src/app.ts:73-77 | a thrown non-Error is a 500 INTERNAL_SERVER_ERROR |
| ErrorHandlers.ThrownOf | src/app.ts:43-47 | service refusals are responses that send themselves; repository failures are Prisma errors carrying their code |
| ErrorHandlers.FailureStatus | src/app.ts:43-62 | every invoice-operation failure reaches the client as 400 or 404, and as 404 exactly for a not-found refusal (a missing invoice or a missing replacement target) and a vanished row |
| Strings.NatToStringRoundTrip | src/libs/numbering.ts:25 | `toString()` of a natural number reads back as that number |
| Strings.PaddedDigitsRoundTrip | src/libs/numbering.ts:25 | padding the rendering of a w-digit field's value to w gives the field back |
| Strings.IntToStringRoundTrip | src/infra/db/pg.adapter.ts:24-25 | `toString()` of an integer, negative included, parses back to it |
| Strings.TrimEmpty | src/services/invoice.service.ts:156 | `trim()` is empty exactly when every character is whitespace |

## Left out

- I/O is not modelled: the `pg` pool, Prisma, the SQL text, Puppeteer, Handlebars, the file system and the logger. The tables are maps, and each call's outcome is a parameter.
- Concurrency is not modelled. Every operation is one atomic step, so the two-query races in the service are not captured. Examples are the read-then-update in `updateDraft` and a number being generated outside the replacement transaction.
- The clock and the current year are parameters. Where the source reads the clock twice in one call, the model uses a single `now`. This happens in `execute`, whose failure time is read after the guarded call returns while the reset check reads it before, in `findById`'s cache stamp, in `startTracking`'s id and start time, and in `checkHealth` through `updateStatus`.
- Invoice ids are natural numbers from a counter rather than random UUIDs. UUID parameter validation is not modelled.
- The ISO date-time validation of the schemas is not modelled. Dates are integers.
- `parseInt` overflow and `Number` precision are not modelled.
- Money.CalculateLineItem: decimal.js rounds the result of each `mul` and `add` to 20 significant digits, half-up, before `toDecimalPlaces(2)`. The model rounds the exact product once. The two differ only when an intermediate needs more than 20 significant digits: 0.99999999999 × 0.00500000000005 is 0.0049999999999999999999995, which decimal.js first rounds to 0.005 and so to 0.01, where the model gives 0.00.
- Money.CalculateInvoiceTotals: the running sums are exact, where decimal.js rounds each `add` to 20 significant digits. Sums of cent amounts below 10^18 need no such rounding.
- CircuitBreakers.FailureRate: the percentage is an exact `real`. Floating-point rounding is not modelled.
- PdfMonitors.RoundDiv: `Math.round` is applied to exact rationals. The floating-point division before the rounding is not modelled.
- HealthChecks.HealthCheck.CollectComponentMetrics: whether the database ping succeeds is a boolean parameter.
- The breaker's `getName`, and the singleton accessors `getInstance` of the health check and the PDF monitor, are plain field reads. They carry no contract.
- The PDF monitor's `logPerformance` only writes to the log and is not modelled.
- `findByNumber` of the repository and the service is a unique-key lookup with no rule of its own, and is not modelled.
- `updatePdfInfo` is not modelled. It writes the PDF path and time, which the model's invoice row does not carry.
- Rendering and writing PDFs is not modelled: templates, the browser pool and storage checks. Only the cache in front of it and the file-name rule are.
- InvoiceRepo.ListIn: a page or a limit below 1 gives no result. Prisma rejects the negative skip that a page below 1 produces. A zero or negative limit is not modelled: Prisma reads a negative `take` as counting from the end, and a zero limit makes the page count infinite.
- InvoiceRepo.StatusRank: the listing sorts statuses in the order draft, issued, canceled. This assumes the database sorts its status enum in declaration order. The Prisma schema is not part of this model; a text column would sort alphabetically instead (canceled, draft, issued).
- InvoiceRepo.ListIn: two rows with the same status and creation time are ordered by id. The database leaves their order unspecified.
- InvoiceRepo.InvoiceRepository.List: its contract gives only the total and the page size. The full page content is stated by `InvoiceRepo.ListIn`, which the service's `List` uses.
- Strings.ContainsInsensitive: the case fold covers the ASCII letters A-Z only. The database's insensitive match also folds other letters, such as accented Vietnamese capitals, so the model's search can miss rows the database finds.
- InvoiceServices.BuildWhere: the three-character threshold counts Unicode characters. JavaScript's `length` counts UTF-16 units, so a term with a character outside the Basic Multilingual Plane can switch search modes earlier in the source.
- ErrorHandlers.HandleError: response bodies, including the localized messages, are not modelled. Only the status and the error tag are.
- The Drizzle adapter, the processing queue, the event listener, backfill and the sync tracker are not part of this model.
