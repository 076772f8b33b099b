/**
 * The creative-inventory check runner: it runs the registered creative
 * checks on the NBT of an item a player sets in creative mode, descending
 * through nested containers ("BlockEntityTag" -> "Items" -> "tag" -> ...)
 * within the configured recursion and item limits.
 */
module CreativeRunner {

  import opened Wrappers
  import opened Numerals
  import opened Nbt
  import opened Packets
  import opened PlayerDataModel
  import opened CreativeWalk
  import CreativeBounds

  class CreativeCheckRunner {
    const checks: seq<CreativeCheck>
    const maxRecursions: Int32
    const maxItems: Int32

    /** The violations passed to `flag`, oldest first. */
    ghost var flagged: seq<Violation>
    /** How many times a creative check's `handleCheck` has been invoked. */
    ghost var checkCalls: nat
    /** How many times `recursion` has been entered. */
    ghost var recursionCalls: nat

    function Cfg(): Config {
      Config(checks, maxRecursions, maxItems)
    }

    /** The limits are read from the configuration when the runner is built. */
    constructor (checks: seq<CreativeCheck>, maxRecursions: Int32, maxItems: Int32)
      ensures Cfg() == Config(checks, maxRecursions, maxItems)
      ensures flagged == [] && checkCalls == 0 && recursionCalls == 0
    {
      this.checks := checks;
      this.maxRecursions := maxRecursions;
      this.maxItems := maxItems;
      flagged := [];
      checkCalls := 0;
      recursionCalls := 0;
    }

    /** `flag(event, Message(v))`. */
    method Flag(v: Violation)
      modifies this`flagged
      ensures flagged == old(flagged) + [v]
    {
      flagged := flagged + [v];
    }

    /**
     * The loop over the checks inside the item loop: asks them in order and
     * stops at the first that reports `c`.
     */
    method RunChecks(clickedItem: ItemStack, c: Compound) returns (failed: bool)
      modifies this`checkCalls
      ensures failed <==> FirstFailing(checks, clickedItem, c).Some?
      ensures checkCalls == old(checkCalls) +
        match FirstFailing(checks, clickedItem, c)
        case Some(j) => j + 1
        case None => |checks|
    {
      for j := 0 to |checks|
        invariant checkCalls == old(checkCalls) + j
        invariant forall k :: 0 <= k < j ==> !checks[k](clickedItem, c)
      {
        checkCalls := checkCalls + 1;
        if checks[j](clickedItem, c) {
          return true;
        }
      }
      return false;
    }

    method Handle(event: PacketReceiveEvent, data: PlayerData)
      requires WellShaped(event)
      requires HasContainer(event) ==> Cfg().CounterFits()
      modifies this, data`recursionCount
      ensures var out := HandleSpec(Cfg(), event, old(data.recursionCount));
        flagged == old(flagged) + out.flags &&
        data.recursionCount == out.count &&
        checkCalls == old(checkCalls) + out.checks &&
        recursionCalls == old(recursionCalls) + out.calls
    {
      if event.packetType == CreativeInventoryAction {
        if event.itemStack.None? {
          return;
        }
        var itemStack := event.itemStack.value;
        if itemStack.nbt.None? {
          return;
        }
        var compound := itemStack.nbt.value;
        if "BlockEntityTag" in compound {
          assert ContainerShaped(compound["BlockEntityTag"]);
          var blockEntityTag := compound["BlockEntityTag"].entries;
          data.ResetRecursion();
          Recursion(data, itemStack, blockEntityTag);
        } else {
          for i := 0 to |checks|
            invariant flagged == old(flagged) + NormalFlags(checks[..i], itemStack, compound)
            invariant checkCalls == old(checkCalls) + i
            invariant recursionCalls == old(recursionCalls)
            invariant data.recursionCount == old(data.recursionCount)
          {
            assert checks[..i + 1][..i] == checks[..i];
            checkCalls := checkCalls + 1;
            if checks[i](itemStack, compound) {
              Flag(FailedNormalCheck(itemStack.typeName));
            }
          }
          assert checks[..|checks|] == checks;
        }
      }
    }

    /** `recursion(event, data, clickedItem, blockEntityTag)`. */
    method Recursion(data: PlayerData, clickedItem: ItemStack, blockEntityTag: Compound)
      requires ContainerShaped(CompoundTag(blockEntityTag))
      requires Cfg().Fits(data.recursionCount, 1)
      modifies this, data`recursionCount
      decreases Cfg().Headroom(data.recursionCount), 0
      ensures var out := Walk(Cfg(), clickedItem, blockEntityTag, old(data.recursionCount));
        flagged == old(flagged) + out.flags &&
        data.recursionCount == out.count &&
        checkCalls == old(checkCalls) + out.checks &&
        recursionCalls == old(recursionCalls) + out.calls
    {
      ghost var out := Walk(Cfg(), clickedItem, blockEntityTag, data.recursionCount);
      recursionCalls := recursionCalls + 1;
      var before := data.IncrementRecursionCount();
      if before > maxRecursions {
        Flag(TooManyRecursions);
        return;
      }
      if "Items" in blockEntityTag {
        var items := GetCompoundListOrNull(blockEntityTag, "Items");
        if items.None? {
          return;
        }
        var list := items.value;
        if |list| > maxItems as int {
          Flag(TooManyItems(|list|));
          return;
        }
        assert Cfg().Headroom(before) == Cfg().Headroom(before + 1) + 1;
        CreativeBounds.OneMoreRound(|list|, Cfg().Headroom(before + 1), Cfg().ItemBound(), 0);
        var i := 0;
        while i < |list|
          invariant 0 <= i <= |list|
          invariant data.recursionCount > before
          invariant Cfg().Fits(data.recursionCount, |list| - i)
          invariant var rest := WalkItems(Cfg(), clickedItem, list, i, data.recursionCount);
            old(flagged) + out.flags == flagged + rest.flags &&
            out.count == rest.count &&
            old(checkCalls) + out.checks == checkCalls + rest.checks &&
            old(recursionCalls) + out.calls == recursionCalls + rest.calls
        {
          var stop := VisitItem(data, clickedItem, list, i);
          if stop {
            return;
          }
          i := i + 1;
        }
      }
    }

    /**
     * One round of the item loop of `recursion`: the checks on child `i`
     * (on its "tag" when it has one, else on the child itself), then the
     * descent into a nested "BlockEntityTag". `stop` is the `return` after
     * a flag, which leaves the current `recursion` call.
     */
    method VisitItem(data: PlayerData, clickedItem: ItemStack, list: seq<Compound>, i: nat) returns (stop: bool)
      requires i < |list|
      requires forall k :: i <= k < |list| ==> ItemShaped(CompoundTag(list[k]))
      requires Cfg().Fits(data.recursionCount, |list| - i)
      modifies this, data`recursionCount
      decreases Cfg().Headroom(data.recursionCount), 1
      ensures data.recursionCount >= old(data.recursionCount)
      ensures var now := WalkItems(Cfg(), clickedItem, list, i, old(data.recursionCount));
        var rest := if stop then Outcome([], data.recursionCount, 0, 0)
                    else WalkItems(Cfg(), clickedItem, list, i + 1, data.recursionCount);
        old(flagged) + now.flags == flagged + rest.flags &&
        now.count == rest.count &&
        old(checkCalls) + now.checks == checkCalls + rest.checks &&
        old(recursionCalls) + now.calls == recursionCalls + rest.calls
      ensures !stop ==> Cfg().Fits(data.recursionCount, |list| - i - 1)
    {
      var item := list[i];
      assert ItemShaped(CompoundTag(item));
      if "tag" in item {
        assert HoldsContainer(item["tag"]);
        var tag := item["tag"].entries;
        var failed := RunChecks(clickedItem, tag);
        if failed {
          Flag(ItemTagData(data.recursionCount, clickedItem.typeName));
          return true;
        }
        if "BlockEntityTag" in tag {
          assert ContainerShaped(tag["BlockEntityTag"]);
          var nestedTag := tag["BlockEntityTag"].entries;
          ghost var entry := data.recursionCount;
          CreativeBounds.WalkBounds(Cfg(), clickedItem, nestedTag, entry);
          Recursion(data, clickedItem, nestedTag);
          NestedFits(Cfg(), entry, data.recursionCount, |list| - i);
        }
      } else {
        var failed := RunChecks(clickedItem, item);
        if failed {
          Flag(ItemBaseData(data.recursionCount, clickedItem.typeName));
          return true;
        }
      }
      return false;
    }
  }

  /** After a nested call from `entry` to `exit`, what is left of the overflow margin. */
  lemma NestedFits(cfg: Config, entry: int, exit: int, n: int)
    requires cfg.Fits(entry, n)
    requires exit - entry <= 1 + (cfg.Headroom(entry) - cfg.Headroom(exit)) * cfg.ItemBound()
    ensures cfg.Fits(exit, n - 1)
  {
    CreativeBounds.Distributes(cfg.Headroom(entry) - cfg.Headroom(exit), cfg.Headroom(exit), cfg.ItemBound());
  }
}
