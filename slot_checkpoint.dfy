/**
 * The slot checkpoints of the two sync lanes (src/app/checkpoint.ts), read and
 * written through the database adapter.
 */
module SlotCheckpoints {
  import opened Wrappers
  import opened PgAdapters

  datatype Lane = Realtime | Backfill

  function LaneId(lane: Lane): (id: string)
    ensures id == if lane.Realtime? then "realtime" else "backfill"
  {
    match lane
    case Realtime => "realtime"
    case Backfill => "backfill"
  }

  /**
   * `cp?.last_slot ?? null`: no row gives null, a row gives its slot (a stored
   * slot of 0 included), and a row whose slot is null gives null.
   */
  function SlotOf(t: CheckpointTable, lane: Lane): (r: Option<int>)
    ensures LaneId(lane) !in t ==> r == None
    ensures LaneId(lane) in t ==> r == t[LaneId(lane)].lastSlot
  {
    match Get(t, LaneId(lane))
    case None => None
    case Some(row) => row.lastSlot
  }

  /** The patch `setSlotCheckpoint` sends: the slot only, never the signature. */
  function SlotPatch(slot: int): CheckpointPatch {
    CheckpointPatch(Some(slot), None)
  }

  function GetSlotCheckpoint(db: PgAdapter, lane: Lane): (r: Option<int>)
    reads db
    ensures r == SlotOf(db.checkpoints, lane)
  {
    match db.GetCheckpoint(LaneId(lane))
    case None => None
    case Some(row) => row.lastSlot
  }

  method SetSlotCheckpoint(db: PgAdapter, lane: Lane, slot: int)
    modifies db
    ensures db.checkpoints == MergeCheckpoint(old(db.checkpoints), LaneId(lane), SlotPatch(slot))
    ensures db.swaps == old(db.swaps)
  {
    db.SetCheckpoint(LaneId(lane), SlotPatch(slot));
  }

  /** After setting a lane's slot, reading it back gives that slot. */
  lemma SetThenGet(t: CheckpointTable, lane: Lane, slot: int)
    ensures SlotOf(MergeCheckpoint(t, LaneId(lane), SlotPatch(slot)), lane) == Some(slot)
  {
  }

  /** Setting the slot keeps the lane's stored signature. */
  lemma SetKeepsSignature(t: CheckpointTable, lane: Lane, slot: int)
    requires LaneId(lane) in t
    ensures MergeCheckpoint(t, LaneId(lane), SlotPatch(slot))[LaneId(lane)].lastSignature
      == t[LaneId(lane)].lastSignature
  {
  }

  /** The realtime and backfill lanes are independent. */
  lemma LanesIndependent(t: CheckpointTable, written: Lane, other: Lane, slot: int)
    requires written != other
    ensures SlotOf(MergeCheckpoint(t, LaneId(written), SlotPatch(slot)), other) == SlotOf(t, other)
  {
  }

  /** A stored slot of 0 reads back as 0, not as null. */
  lemma ZeroSlotIsNotNull()
    ensures SlotOf(map["realtime" := CheckpointRow(Some(0), None)], Realtime) == Some(0)
  {
  }
}
