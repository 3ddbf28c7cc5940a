/** The notifications entities emit (unsw.dungeon.events). */
module Events {
  /** A move from (oldX, oldY) to (newX, newY), sent as an intent before the move and as an event after it. */
  datatype LocationChanged = LocationChanged(oldX: int, oldY: int, newX: int, newY: int)

  /** A change of an item's remaining uses, sent through the item's itemUsed emitter. */
  datatype ItemUsed = ItemUsed(oldUses: int, newUses: int)
}
