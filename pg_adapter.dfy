/**
 * The PostgreSQL adapter of the indexer (src/infra/db/pg.adapter.ts), with its
 * two tables held as maps: `swaps` keyed by transaction signature and
 * `checkpoints` keyed by lane id.
 *
 * `INSERT ... ON CONFLICT (signature) DO NOTHING` makes a swap insert
 * first-write-wins and idempotent; `ON CONFLICT (id) DO UPDATE SET
 * col = COALESCE($n, col)` makes a checkpoint write a partial-field upsert.
 */
module PgAdapters {
  import opened Wrappers
  import Strings

  /** A decoded swap as the parser hands it over (src/domain/types.ts). */
  datatype SwapEvent = SwapEvent(
    signature: string,
    userPubkey: string,
    tokenIn: string,
    tokenOut: string,
    amountIn: int,
    amountOut: int,
    slot: int,
    blockTime: int,
    route: Option<string>,
    raw: Option<string>)  // the payload, as its JSON text

  /** One row of `swaps`: amounts as decimal text, a nullable route, raw JSON. */
  datatype SwapRow = SwapRow(
    signature: string,
    userPubkey: string,
    tokenIn: string,
    tokenOut: string,
    amountIn: string,
    amountOut: string,
    slot: int,
    blockTime: int,
    route: Option<string>,
    raw: string)

  /** One row of `checkpoints`: both columns are nullable. */
  datatype CheckpointRow = CheckpointRow(lastSlot: Option<int>, lastSignature: Option<string>)

  /** The argument of `setCheckpoint`: an omitted field is `None`. */
  datatype CheckpointPatch = CheckpointPatch(lastSlot: Option<int>, lastSignature: Option<string>)

  type SwapTable = map<string, SwapRow>
  type CheckpointTable = map<string, CheckpointRow>

  /**
   * The row `upsertSwap` binds: the amounts go in as the decimal text of the
   * big integers, so reading them back gives the exact values; an absent route
   * is SQL NULL and an absent payload is the JSON literal `null`.
   */
  function RowOf(evt: SwapEvent): (row: SwapRow)
    ensures row.signature == evt.signature && row.slot == evt.slot
    ensures Strings.ParseInt(row.amountIn) == Strings.Parsed(evt.amountIn)
    ensures Strings.ParseInt(row.amountOut) == Strings.Parsed(evt.amountOut)
    ensures row.route == evt.route
    ensures row.userPubkey == evt.userPubkey && row.tokenIn == evt.tokenIn && row.tokenOut == evt.tokenOut
    ensures row.blockTime == evt.blockTime
    ensures evt.raw.Some? ==> row.raw == evt.raw.value
    ensures evt.raw.None? ==> row.raw == "null"
  {
    Strings.IntToStringRoundTrip(evt.amountIn);
    Strings.IntToStringRoundTrip(evt.amountOut);
    SwapRow(evt.signature, evt.userPubkey, evt.tokenIn, evt.tokenOut,
            Strings.IntToString(evt.amountIn), Strings.IntToString(evt.amountOut),
            evt.slot, evt.blockTime, evt.route, evt.raw.GetOr("null"))
  }

  /** The `swaps` table after `upsertSwap(evt)`. */
  function InsertSwap(t: SwapTable, evt: SwapEvent): (t': SwapTable)
    ensures t'.Keys == t.Keys + {evt.signature}
    ensures t'[evt.signature] == if evt.signature in t then t[evt.signature] else RowOf(evt)
    ensures forall sig :: sig in t && sig != evt.signature ==> t'[sig] == t[sig]
  {
    if evt.signature in t then t else t[evt.signature := RowOf(evt)]
  }

  /** Delivering the same swap twice stores it once. */
  lemma InsertSwapIdempotent(t: SwapTable, evt: SwapEvent)
    ensures InsertSwap(InsertSwap(t, evt), evt) == InsertSwap(t, evt)
  {
  }

  /**
   * Of two swaps with the same signature, the first one written is the one
   * kept, whatever the second carries.
   */
  lemma FirstWriteWins(t: SwapTable, first: SwapEvent, second: SwapEvent)
    requires first.signature == second.signature && first.signature !in t
    ensures InsertSwap(InsertSwap(t, first), second) == t[first.signature := RowOf(first)]
  {
  }

  /** The `checkpoints` table after `setCheckpoint(id, patch)`. */
  function MergeCheckpoint(t: CheckpointTable, id: string, patch: CheckpointPatch): (t': CheckpointTable)
    ensures t'.Keys == t.Keys + {id}
    ensures forall lane :: lane in t && lane != id ==> t'[lane] == t[lane]
    ensures id !in t ==> t'[id] == CheckpointRow(patch.lastSlot, patch.lastSignature)
    ensures id in t ==> t'[id].lastSlot == (if patch.lastSlot.Some? then patch.lastSlot else t[id].lastSlot)
    ensures id in t ==> t'[id].lastSignature == (if patch.lastSignature.Some? then patch.lastSignature else t[id].lastSignature)
  {
    if id !in t then
      t[id := CheckpointRow(patch.lastSlot, patch.lastSignature)]
    else
      var row := t[id];
      t[id := CheckpointRow(Coalesce(patch.lastSlot, row.lastSlot), Coalesce(patch.lastSignature, row.lastSignature))]
  }

  /** SQL `COALESCE(a, b)` on two nullable values. */
  function Coalesce<T>(a: Option<T>, b: Option<T>): Option<T> {
    if a.Some? then a else b
  }

  /** Writing the same checkpoint twice is the same as writing it once. */
  lemma MergeCheckpointIdempotent(t: CheckpointTable, id: string, patch: CheckpointPatch)
    ensures MergeCheckpoint(MergeCheckpoint(t, id, patch), id, patch) == MergeCheckpoint(t, id, patch)
  {
  }

  /**
   * There is no monotonicity guard on the slot: a supplied slot replaces the
   * stored one even when it is smaller.
   */
  lemma SlotMayMoveBackwards()
    ensures var t := map["backfill" := CheckpointRow(Some(200), Some("sig"))];
      MergeCheckpoint(t, "backfill", CheckpointPatch(Some(100), None))["backfill"]
        == CheckpointRow(Some(100), Some("sig"))
  {
  }

  class PgAdapter {
    var swaps: SwapTable
    var checkpoints: CheckpointTable

    constructor ()
      ensures swaps == map[] && checkpoints == map[]
    {
      swaps, checkpoints := map[], map[];
    }

    method UpsertSwap(evt: SwapEvent)
      modifies this
      ensures swaps == InsertSwap(old(swaps), evt)
      ensures checkpoints == old(checkpoints)
    {
      if evt.signature !in swaps {
        swaps := swaps[evt.signature := RowOf(evt)];
      }
    }

    /** `getCheckpoint(id)`: the stored row, or null when the lane has none. */
    function GetCheckpoint(id: string): (r: Option<CheckpointRow>)
      reads this
      ensures r.Some? <==> id in checkpoints
      ensures r.Some? ==> r.value == checkpoints[id]
    {
      Get(checkpoints, id)
    }

    method SetCheckpoint(id: string, patch: CheckpointPatch)
      modifies this
      ensures checkpoints == MergeCheckpoint(old(checkpoints), id, patch)
      ensures swaps == old(swaps)
    {
      var existing := GetCheckpoint(id);
      match existing
      case None =>
        checkpoints := checkpoints[id := CheckpointRow(patch.lastSlot, patch.lastSignature)];
      case Some(row) =>
        var slot := if patch.lastSlot.Some? then patch.lastSlot else row.lastSlot;
        var signature := if patch.lastSignature.Some? then patch.lastSignature else row.lastSignature;
        checkpoints := checkpoints[id := CheckpointRow(slot, signature)];
    }
  }
}
