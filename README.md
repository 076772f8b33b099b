# Titanium creative-inventory checks, modelled in Dafny

Titanium is a packet-validation plugin for a game server. It checks every
packet a player sends before the server acts on it. This project models three
parts of it:

- **`CreativeCheckRunner`**. When a player in creative mode sets an
  inventory slot, the runner looks at the item's NBT tree (named binary
  tags). It runs every registered creative check on that tree. When the item
  simulates a container (its NBT has a `"BlockEntityTag"`), the runner walks
  down `"BlockEntityTag"` → `"Items"` → each item's `"tag"` →
  `"BlockEntityTag"` → …. Two configured limits bound the walk:
  `maxRecursions` and `maxItems`. The first is enforced through a recursion
  counter kept in the player's data.
- **`PlayerData`**. This is the per-connection record of counters that the
  checks update in place.
- **`CrasherD`**. It flags an inbound frame whose buffer writer index is
  greater than the configured `maxBytes`.

## Layout

| file | module | what it holds |
|---|---|---|
| `wrappers.dfy` | `Wrappers` | `Option`, for Java's `null` |
| `numerals.dfy` | `Numerals` | Java's `int` range (`Int32`); the decimal text Java writes for an `int`; its parser; the round trip |
| `nbt.dfy` | `Nbt` | the NBT `Tag` datatype; `getCompoundListTagOrNull`; the shape predicates (see "Left out") |
| `packets.dfy` | `Packets` | packet type, item stack, received packet |
| `player_data.dfy` | `PlayerDataModel` | `class PlayerData` with its counter methods |
| `creative_walk.dfy` | `CreativeWalk` | the runner's behaviour as functions: `HandleSpec`, `Walk` (one `recursion` call), `WalkItems` (its item loop), `FirstFailing`, `NormalFlags`, the flag texts |
| `creative_bounds.dfy` | `CreativeBounds` | the counter and work accounting of a walk |
| `creative_check_runner.dfy` | `CreativeRunner` | `class CreativeCheckRunner`; its methods are proved equal to the `CreativeWalk` functions |
| `creative_properties.dfy` | `CreativeProperties` | the properties of the walk and of `handle` |
| `crasher_d.dfy` | `Crasher` | `CrasherD.handle` as a function |

Each runner method ties the new state to the `CreativeWalk` function that
describes its call. It
states the flags appended to the log, the new value of
`PlayerData.recursionCount`, and the number of `handleCheck` and `recursion`
invocations. The frames show that `recursionCount` is the only `PlayerData`
field the runner writes. The lemmas then state the properties of those
functions.

Each creative check is an arbitrary total function `(ItemStack, Compound) -> bool`.
`flag(event, info)` appends a `Violation` to a ghost log on the runner, and
`Message` gives the exact `info` text of each violation.

## Behaviours that are easy to misread

- **When the recursion limit trips.** `incrementRecursionCount` is
  `return recursionCount++`, so it returns the value from *before* the
  increment (`PlayerData.java:25-27`). `recursion` compares that value with
  `maxRecursions`. After the reset in `handle`, calls 1 to
  `maxRecursions + 1` pass, and call `maxRecursions + 2` flags
  `"too many recursions"`. For example, with `maxRecursions = 2`, three
  nested containers are walked without a flag. `NestedLimitTripsAt` proves
  this.
- **What a flag stops.** The `return` after an item flag
  (`CreativeCheckRunner.java:92`, `107`) leaves only the current `recursion`
  call. The parent call's item loop goes on with its remaining items.
  `FlagReturnsFromCurrentCallOnly` and `FirstFailureEndsCall` prove this.
- **What the counter counts.** The counter is never decremented, so it counts
  every `recursion` call since the reset, siblings included. It is not the
  nesting depth. `SiblingsCountAsRecursions` and `WalkBounds` prove this.

## Model

| member | source | states |
|---|---|---|
| `Numerals.ToDecimal` | src/main/java/me/jaden/titanium/check/impl/crasher/CrasherD.java:23 | the text of an `int` starts with `-` exactly when it is negative; every other character is a digit; zero is `"0"` and no other number has a leading zero |
| `Numerals.DecimalRoundTrip` | src/main/java/me/jaden/titanium/check/impl/crasher/CrasherD.java:23 | parsing the text Java writes for an `int` gives back the same `int` |
| `Numerals.DecimalInjective` | src/main/java/me/jaden/titanium/check/CreativeCheckRunner.java:78 | two numbers with the same text are equal |
| `Nbt.GetCompoundListOrNull` | src/main/java/me/jaden/titanium/check/CreativeCheckRunner.java:69-74 | the result is null unless the key holds a list of compounds; otherwise it is those compounds, in order |
| `Nbt.CompoundListReadsBack` | src/main/java/me/jaden/titanium/check/CreativeCheckRunner.java:69 | a list built from given compounds reads back as exactly those compounds |
| `PlayerDataModel.PlayerData.constructor` | src/main/java/me/jaden/titanium/data/PlayerData.java:12-23 | a new record has no channels, and every tick and counter is 0 |
| `PlayerDataModel.PlayerData.IncrementRecursionCount` | src/main/java/me/jaden/titanium/data/PlayerData.java:25-27 | returns the old `recursionCount` and leaves it one larger; no other field changes |
| `PlayerDataModel.PlayerData.ResetRecursion` | src/main/java/me/jaden/titanium/data/PlayerData.java:28-30 | `recursionCount` becomes 0; no other field changes |
| `PlayerDataModel.PlayerData.IncrementBytesSent` | src/main/java/me/jaden/titanium/data/PlayerData.java:31-33 | adds `amount` to `bytesSent` and returns the new total; no other field changes |
| `PlayerDataModel.PlayerData.IncrementDropCount` | src/main/java/me/jaden/titanium/data/PlayerData.java:35-37 | returns the old `dropCount` and leaves it one larger; no other field changes |
| `CreativeWalk.FirstFailing` | src/main/java/me/jaden/titanium/check/CreativeCheckRunner.java:89-94 | the checks are asked in order; the result is the first check that reports the compound, and every check before it passed; `None` means every check passed |
| `CreativeWalk.NormalFlags` | src/main/java/me/jaden/titanium/check/CreativeCheckRunner.java:52-57 | the non-container loop flags only `"failed normal creative nbt check"` for the clicked item, at most once per check, and flags nothing exactly when no check reports the compound |
| `CreativeWalk.Message` | src/main/java/me/jaden/titanium/check/CreativeCheckRunner.java:55-106 | the flag texts: every text but `"too many recursions"` ends with `)`, and exactly the two item violations start with `"item "` |
| `CreativeWalk.Walk` | src/main/java/me/jaden/titanium/check/CreativeCheckRunner.java:62-113 | every `recursion` call raises the counter and is itself counted as a call |
| `CreativeWalk.WalkItems` | src/main/java/me/jaden/titanium/check/CreativeCheckRunner.java:82-111 | the item loop never lowers the counter |
| `CreativeWalk.HandleSpec` | src/main/java/me/jaden/titanium/check/CreativeCheckRunner.java:32-60 | other packet types, a null item and an item without NBT give no flag, ask no check and leave the counter alone; without a `"BlockEntityTag"` no `recursion` call happens and the counter is untouched |
| `CreativeBounds.WalkBounds` | src/main/java/me/jaden/titanium/check/CreativeCheckRunner.java:62-113 | one `recursion` call raises the counter by exactly the number of calls it makes, itself included; it flags at most once per call; only calls that find the counter at or below `maxRecursions` do work, each at most `maxItems` children and `maxItems` times the number of checks check invocations |
| `CreativeBounds.WalkItemsBounds` | src/main/java/me/jaden/titanium/check/CreativeCheckRunner.java:82-111 | the same accounting for the item loop: at most one flag of its own and at most one invocation per check for each remaining child |
| `CreativeBounds.NestedChildBounds` | src/main/java/me/jaden/titanium/check/CreativeCheckRunner.java:95-99 | the accounting still holds after a child that passed the checks leads to a nested `recursion` call |
| `CreativeRunner.CreativeCheckRunner.constructor` | src/main/java/me/jaden/titanium/check/CreativeCheckRunner.java:19-26 | keeps the given checks and limits; the log is empty |
| `CreativeRunner.CreativeCheckRunner.Flag` | src/main/java/me/jaden/titanium/check/Check.java:14 | appends one violation to the log |
| `CreativeRunner.CreativeCheckRunner.RunChecks` | src/main/java/me/jaden/titanium/check/CreativeCheckRunner.java:89-94 | asks the checks in order and stops at the first that reports; the number of invocations is that check's position plus one, or every check when all pass |
| `CreativeRunner.CreativeCheckRunner.Handle` | src/main/java/me/jaden/titanium/check/CreativeCheckRunner.java:32-60 | the flags appended, the new `recursionCount` and the invocation counts are those of `HandleSpec`; no other `PlayerData` field changes |
| `CreativeRunner.CreativeCheckRunner.Recursion` | src/main/java/me/jaden/titanium/check/CreativeCheckRunner.java:62-113 | the flags appended, the new `recursionCount` and the invocation counts are those of `Walk` from the counter on entry |
| `CreativeRunner.CreativeCheckRunner.VisitItem` | src/main/java/me/jaden/titanium/check/CreativeCheckRunner.java:83-110 | one round of the item loop moves from `WalkItems` at `i` to `WalkItems` at `i + 1`; a flag (`stop`) ends that call's outcome |
| `CreativeProperties.NormalFlagsPerFailingCheck` | src/main/java/me/jaden/titanium/check/CreativeCheckRunner.java:52-57 | the non-container loop emits exactly one `"failed normal creative nbt check"` flag for each check that reports, so it does not stop at the first failure |
| `CreativeProperties.NonContainerPath` | src/main/java/me/jaden/titanium/check/CreativeCheckRunner.java:50-57 | without a `"BlockEntityTag"`, every check runs on the top-level compound; it gives no flag exactly when no check reports; the counter is untouched |
| `CreativeProperties.WalkEarlyExits` | src/main/java/me/jaden/titanium/check/CreativeCheckRunner.java:64-80 | a counter above `maxRecursions` flags `"too many recursions"`; an absent or unreadable `"Items"` gives no flag; a list over `maxItems` flags exactly `"too many items"` with its size; each after one call and no check invocation |
| `CreativeProperties.FirstFailureEndsCall` | src/main/java/me/jaden/titanium/check/CreativeCheckRunner.java:86-109 | when a check reports child `i` (its `"tag"` if present, else the child), the loop flags item tag data or item base data with the current counter, after exactly `j + 1` invocations, and makes no further call or check |
| `CreativeProperties.PassingChildGoesOn` | src/main/java/me/jaden/titanium/check/CreativeCheckRunner.java:86-110 | a child that passes every check and holds no nested container costs one invocation per check and hands the counter unchanged to the next child |
| `CreativeProperties.ChainWalk` | src/main/java/me/jaden/titanium/check/CreativeCheckRunner.java:62-99 | through `d + 1` nested containers, a walk entered with headroom `k` flags `"too many recursions"` exactly when `k <= d`; it then makes `k + 1` calls and stops descending; otherwise it makes all `d + 1` calls without a flag |
| `CreativeProperties.NestedLimitTripsAt` | src/main/java/me/jaden/titanium/check/CreativeCheckRunner.java:64-67 | after the reset, the first call to flag is call number `maxRecursions + 2`; fewer nested containers give no flag |
| `CreativeProperties.FanItemsWalk` | src/main/java/me/jaden/titanium/check/CreativeCheckRunner.java:82-99 | sibling containers each raise the counter by one; each sibling that finds the counter above `maxRecursions` flags `"too many recursions"` |
| `CreativeProperties.SiblingsCountAsRecursions` | src/main/java/me/jaden/titanium/check/CreativeCheckRunner.java:82-99 | `n` sibling containers leave the counter at `n + 1` although the depth is two; the limit trips for every sibling past `maxRecursions` |
| `CreativeProperties.FlagReturnsFromCurrentCallOnly` | src/main/java/me/jaden/titanium/check/CreativeCheckRunner.java:89-99 | a check failure inside a nested container returns from that call only; the parent's loop goes on and flags again for the next sibling, each flag carrying the counter at that moment |
| `CreativeProperties.FlagStopsCurrentLoop` | src/main/java/me/jaden/titanium/check/CreativeCheckRunner.java:86-94 | a check failure ends the loop of its own call: one flag, and no check asked after the failing one |
| `CreativeProperties.HandleWorkBound` | src/main/java/me/jaden/titanium/check/CreativeCheckRunner.java:45-109 | one `handle` of a container item makes at most `1 + (maxRecursions + 1) * maxItems` `recursion` calls; the counter ends at the number of calls; at most one flag per call; at most `(maxRecursions + 1) * maxItems` times the number of checks check invocations |
| `CreativeProperties.ResetForgetsEarlierPackets` | src/main/java/me/jaden/titanium/check/CreativeCheckRunner.java:47-48 | the outcome for a container item does not depend on the counter left by earlier packets |
| `CreativeProperties.MessageTellsKind` | src/main/java/me/jaden/titanium/check/CreativeCheckRunner.java:55-106 | different kinds of violation never produce the same flag text |
| `CreativeProperties.TooManyItemsMessageCarriesSize` | src/main/java/me/jaden/titanium/check/CreativeCheckRunner.java:78 | the `"too many items"` text determines the list size |
| `Crasher.Handle` | src/main/java/me/jaden/titanium/check/impl/crasher/CrasherD.java:16-25 | at most one flag per packet; a flag exactly when `writerIndex > maxBytes`; its text is `"writerIndex: "` followed by the index |
| `Crasher.WriterIndexMessage` | src/main/java/me/jaden/titanium/check/impl/crasher/CrasherD.java:23 | the flag text is `"writerIndex: "` followed by a numeral that has a minus sign exactly when the index is negative |
| `Crasher.BoundIsInclusive` | src/main/java/me/jaden/titanium/check/impl/crasher/CrasherD.java:22 | `writerIndex == maxBytes` passes; `maxBytes + 1` is flagged |
| `Crasher.AnyPacketType` | src/main/java/me/jaden/titanium/check/impl/crasher/CrasherD.java:16-20 | the packet type plays no part |
| `Crasher.FlagCarriesWriterIndex` | src/main/java/me/jaden/titanium/check/impl/crasher/CrasherD.java:23 | the writer index reads back exactly from the flag text |

## Left out

- `Titanium.java` (plugin start-up and registration of the checks) is lifecycle I/O. The check manager that dispatches packets to the checks is not part of this model.
- `InvalidA.java` is left out. It classifies IEEE-754 doubles and floats (`Double.isNaN`, `Float.isFinite`), which this model does not represent. Note that x, y and z are only checked for NaN, while yaw and pitch are also checked for infinity (`InvalidA.java:38`).
- `Check.java` holds only no-op default handlers and an overload that passes `""` to `flagPacket`. The `kick`/disconnect side of flagging lives in classes that are not part of this model. `Flag` only records the violation.
- The packet wrappers and `ByteBufHelper.writerIndex` belong to an external library. The decoded item and the writer index are fields of `PacketReceiveEvent`.
- The concrete creative checks are not part of this model. Each one is an arbitrary total function of the clicked item and a compound.
- `PlayerData.packetAllowance`, `packetCount`, `incrementPacketCount` and `decrementPacketAllowance` are left out because they are `double` arithmetic.
- The `System.out.println` in `CrasherD.handle` is I/O.
- The configuration singletons are left out. The runner takes `checks`, `maxRecursions` and `maxItems` in its constructor. `Crasher.Handle` takes `maxBytes` as a parameter.
- The event argument of `flag` is left out. The log records the reason only.
- The runner reads `"BlockEntityTag"` and `"tag"` with `getCompoundTagOrNull`, which gives null when the entry holds something other than a compound. The model does not represent that null. Instead, the shape predicates `Nbt.HoldsContainer`, `Nbt.ContainerShaped` and `Nbt.ItemShaped` are preconditions, and they ask for compounds throughout the tree, also in parts the Java never reaches. This excludes inputs that the Java handles without error:
  - a `"tag"` holding a non-compound reaches the checks as null (`CreativeCheckRunner.java:90`); when a check reports it, the runner flags "item tag data" and returns before line 96 dereferences it;
  - a non-compound `"BlockEntityTag"` passed to `recursion` is never dereferenced when the counter is already above `maxRecursions` (lines 64-66 flag and return);
  - malformed entries the walk never visits: the children of a list over `maxItems`, the children after a flag, containers past the recursion limit.
  The Java throws a `NullPointerException` only when it dereferences the null (lines 68 and 96); the model covers neither that exception nor the cases above.
- `CreativeRunner.CreativeCheckRunner.Handle`: requires `WellShaped(event)`, for the reason above. For an item that carries a `"BlockEntityTag"` it also requires `CounterFits()`, meaning `1 + (maxRecursions + 1) * maxItems` fits in an `int`, so that the 32-bit counter cannot wrap during one walk. The Java code has neither requirement.
- `CreativeRunner.CreativeCheckRunner.Recursion`: requires a shaped container and enough room below `Integer.MAX_VALUE` for the rest of the walk, for the same two reasons.
- `CreativeRunner.CreativeCheckRunner.VisitItem`: requires shaped items and room for the counter, for the same two reasons.
- `CreativeWalk.Walk`: requires a shaped container. `CreativeWalk.WalkItems` requires shaped items. `CreativeWalk.HandleSpec` requires a shaped event.
- `PlayerDataModel.PlayerData.IncrementRecursionCount`: requires `recursionCount < Integer.MAX_VALUE`. Java's wrap-around to `Integer.MIN_VALUE` is not modelled.
- `PlayerDataModel.PlayerData.IncrementDropCount`: requires `dropCount < Integer.MAX_VALUE`. Wrap-around is not modelled.
- `PlayerDataModel.PlayerData.IncrementBytesSent`: requires the sum to stay within `int`. Wrap-around is not modelled.
- The claim "after a reset, k increments return 0, 1, …, k − 1" is not stated as a lemma about `PlayerData`. It appears through the walk instead. `CreativeBounds.WalkBounds` shows the counter ends at exactly the number of calls. `CreativeProperties.NestedLimitTripsAt` shows the call that sees `maxRecursions + 1` is the one that flags.
- The open question of the unreadable `"Items"` list is kept as in the code. A list that `getCompoundListTagOrNull` cannot read gives no flag and no further descent.
