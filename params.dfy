/** Saved (non-volatile) parameter bank, as seen by the wear-statistics
    tracker: a fixed number of numeric slots, indexed from 1 (slot 0 is
    reserved), and the record of every write-back requested from the
    persistent store. Slot values are integers here; the source bank holds
    floats. */
module Params {

  /** One `save(idx, value)` request to the persistent store. */
  datatype SaveCall = SaveCall(idx: nat, value: int)

  /** `values[0]` is the reserved slot; `values[1..]` are the usable ones.
      `log` lists the persisted writes, oldest first. */
  datatype SavedParams = SavedParams(values: seq<int>, log: seq<SaveCall>) {

    /** Slot `idx` exists: valid indices are 1..count. */
    predicate HasSlot(idx: nat) {
      1 <= idx < |values|
    }

    /** `save(idx, value)`: store `value` in slot `idx` and persist it, so
        exactly one write for that slot is added to the log and no other
        slot changes. */
    function Save(idx: nat, value: int): (r: SavedParams)
      requires HasSlot(idx)
      ensures |r.values| == |values| && r.HasSlot(idx)
      ensures r.values[idx] == value
      ensures forall k :: 0 <= k < |values| && k != idx ==> r.values[k] == values[k]
      ensures r.log == log + [SaveCall(idx, value)]
    {
      SavedParams(values[idx := value], log + [SaveCall(idx, value)])
    }
  }

  /** A bank of `|stored|` slots whose contents were read back from the
      persistent store at start-up; nothing has been written yet. */
  function Load(stored: seq<int>): (p: SavedParams)
    ensures |p.values| == |stored| + 1
    ensures forall k :: 1 <= k <= |stored| ==> p.HasSlot(k) && p.values[k] == stored[k - 1]
    ensures p.log == []
  {
    SavedParams([0] + stored, [])
  }
}
