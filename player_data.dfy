/** The per-connection record of counters and timestamps that the checks update. */
module PlayerDataModel {

  import opened Numerals

  class PlayerData {
    var channels: set<string>
    var lastBookEditTick: Int32
    var lastDropItemTick: Int32
    var lastCraftRequestTick: Int32
    var dropCount: Int32
    var recursionCount: Int32
    var bytesSent: Int32

    /** A fresh record: no channels, every counter and tick zero. */
    constructor ()
      ensures channels == {}
      ensures lastBookEditTick == lastDropItemTick == lastCraftRequestTick == 0
      ensures dropCount == recursionCount == bytesSent == 0
    {
      channels := {};
      lastBookEditTick, lastDropItemTick, lastCraftRequestTick := 0, 0, 0;
      dropCount, recursionCount, bytesSent := 0, 0, 0;
    }

    /** `recursionCount++`: answers the value before the increment. */
    method IncrementRecursionCount() returns (previous: Int32)
      requires recursionCount < INT_MAX
      modifies this`recursionCount
      ensures previous == old(recursionCount)
      ensures recursionCount == old(recursionCount) + 1
    {
      previous := recursionCount;
      recursionCount := recursionCount + 1;
    }

    method ResetRecursion()
      modifies this`recursionCount
      ensures recursionCount == 0
    {
      recursionCount := 0;
    }

    /** `bytesSent += amount`: answers the new total. */
    method IncrementBytesSent(amount: Int32) returns (total: Int32)
      requires INT_MIN <= bytesSent + amount <= INT_MAX
      modifies this`bytesSent
      ensures bytesSent == old(bytesSent) + amount
      ensures total == bytesSent
    {
      bytesSent := bytesSent + amount;
      total := bytesSent;
    }

    /** `dropCount++`: answers the value before the increment. */
    method IncrementDropCount() returns (previous: Int32)
      requires dropCount < INT_MAX
      modifies this`dropCount
      ensures previous == old(dropCount)
      ensures dropCount == old(dropCount) + 1
    {
      previous := dropCount;
      dropCount := dropCount + 1;
    }
  }
}
