/** What one `localStorage` key holds, as the storage hooks see it when they
    read it back: nothing (a missing key or the empty string, both falsy),
    a value `JSON.parse` reads back, or text on which `JSON.parse` throws. */
module LocalStorage {

  datatype Slot<T> = Absent | Stored(value: T) | Malformed

  /** A state cell agrees with its key: the key holds the cell's value, or
      the key is empty and the cell holds its default. Reading the key back
      then gives the cell's value. */
  ghost predicate SlotSynced<T>(slot: Slot<T>, cell: T, default: T)
  {
    slot == Stored(cell) || (slot == Absent && cell == default)
  }

  /** `if (saved) cell = JSON.parse(saved)`: the cell after reading a key
      that did not throw. */
  function ReadBack<T>(slot: Slot<T>, cell: T): (r: T)
    ensures slot.Stored? ==> r == slot.value
    ensures !slot.Stored? ==> r == cell
  {
    if slot.Stored? then slot.value else cell
  }

  /** Reading a synced key back into a cell at its default restores the
      cell's value. */
  lemma ReadBackSynced<T>(slot: Slot<T>, cell: T, default: T)
    requires SlotSynced(slot, cell, default)
    ensures ReadBack(slot, default) == cell
  {
  }
}
