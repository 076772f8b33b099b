/**
 * What the creative-inventory check runner computes, as functions: which
 * violations it flags, in which order, where it leaves the recursion
 * counter, and how many times it asks a creative check.
 */
module CreativeWalk {

  import opened Wrappers
  import opened Numerals
  import opened Nbt
  import opened Packets

  /** A creative check's `handleCheck(clickedItem, compound)`: true means "illegal". */
  type CreativeCheck = (ItemStack, Compound) -> bool

  /** The runner's registered checks and its two configured limits. */
  datatype Config = Config(checks: seq<CreativeCheck>, maxRecursions: Int32, maxItems: Int32)
  {
    /** The configured item limit as a bound on the children walked by one call. */
    function ItemBound(): (bound: nat) {
      if maxItems < 0 then 0 else maxItems
    }

    /**
     * How many more calls may still reach the item loop once the counter
     * stands at `count`: each such call consumes one counter value not
     * above `maxRecursions`.
     */
    function Headroom(count: int): (h: nat)
      ensures h == 0 <==> count > maxRecursions
    {
      if count <= maxRecursions then maxRecursions + 1 - count else 0
    }

    /** A walk started with the counter at `count` (plus `slack`) cannot overflow it. */
    predicate Fits(count: int, slack: int) {
      count + slack + Headroom(count) * ItemBound() <= INT_MAX
    }

    /** The counter cannot overflow in a walk that starts from a reset. */
    predicate CounterFits() {
      Fits(0, 1)
    }
  }

  /** The reasons the runner passes to `flag`. */
  datatype Violation =
    | FailedNormalCheck(itemName: string)
    | TooManyRecursions
    | TooManyItems(size: int)
    | ItemTagData(recursions: int, itemName: string)
    | ItemBaseData(recursions: int, itemName: string)

  /**
   * The exact text handed to `flag`. Every text but "too many recursions"
   * closes with the parenthesised details, and exactly the two item
   * violations start with "item ".
   */
  function Message(v: Violation): (m: string)
    ensures |m| >= 5
    ensures m[|m| - 1] == ')' <==> !v.TooManyRecursions?
    ensures v.ItemTagData? || v.ItemBaseData? ==> m[..5] == "item "
    ensures m[0] == 'i' <==> v.ItemTagData? || v.ItemBaseData?
  {
    match v
    case FailedNormalCheck(name) => "failed normal creative nbt check (item: " + name + ")"
    case TooManyRecursions => "too many recursions"
    case TooManyItems(size) => "too many items (items: " + ToDecimal(size) + ")"
    case ItemTagData(n, name) => "item tag data (recursions: " + ToDecimal(n) + " item: " + name + ")"
    case ItemBaseData(n, name) => "item base data (recursions: " + ToDecimal(n) + " item: " + name + ")"
  }

  /**
   * The observable effect of one run: the flags in order, the final value
   * of the recursion counter, the number of `handleCheck` invocations and
   * the number of `recursion` invocations.
   */
  datatype Outcome = Outcome(flags: seq<Violation>, count: int, checks: nat, calls: nat)

  /** The checks are asked in order; the index of the first that reports the compound. */
  function FirstFailing(checks: seq<CreativeCheck>, item: ItemStack, c: Compound): (r: Option<nat>)
    ensures r.Some? ==> r.value < |checks| && checks[r.value](item, c)
    ensures r.Some? ==> forall j :: 0 <= j < r.value ==> !checks[j](item, c)
    ensures r.None? ==> forall j :: 0 <= j < |checks| ==> !checks[j](item, c)
  {
    if checks == [] then None
    else if checks[0](item, c) then Some(0)
    else match FirstFailing(checks[1..], item, c)
      case None => None
      case Some(j) => Some(j + 1)
  }

  /** The flags of the non-container path: one per check that reports the compound, in order. */
  function NormalFlags(checks: seq<CreativeCheck>, item: ItemStack, c: Compound): (flags: seq<Violation>)
    ensures |flags| <= |checks|
    ensures forall k :: 0 <= k < |flags| ==> flags[k] == FailedNormalCheck(item.typeName)
    ensures flags == [] <==> forall j :: 0 <= j < |checks| ==> !checks[j](item, c)
  {
    if checks == [] then []
    else
      NormalFlags(checks[..|checks| - 1], item, c) +
      (if checks[|checks| - 1](item, c) then [FailedNormalCheck(item.typeName)] else [])
  }

  /**
   * One call of `recursion` on the container compound `bet`, with the
   * recursion counter at `count` on entry.
   */
  function Walk(cfg: Config, item: ItemStack, bet: Compound, count: int): (r: Outcome)
    requires ContainerShaped(CompoundTag(bet))
    ensures r.count > count && r.calls >= 1
    decreases cfg.Headroom(count), 0
  {
    if count > cfg.maxRecursions then Outcome([TooManyRecursions], count + 1, 0, 1)
    else if "Items" !in bet then Outcome([], count + 1, 0, 1)
    else match GetCompoundListOrNull(bet, "Items")
      case None => Outcome([], count + 1, 0, 1)
      case Some(items) =>
        if |items| > cfg.maxItems then Outcome([TooManyItems(|items|)], count + 1, 0, 1)
        else
          var rest := WalkItems(cfg, item, items, 0, count + 1);
          Outcome(rest.flags, rest.count, rest.checks, rest.calls + 1)
  }

  /**
   * The item loop of one `recursion` call from index `i` on, with the
   * counter at `count`; a flag ends this loop (and only this loop).
   */
  function WalkItems(cfg: Config, item: ItemStack, items: seq<Compound>, i: nat, count: int): (r: Outcome)
    requires i <= |items|
    requires forall k :: i <= k < |items| ==> ItemShaped(CompoundTag(items[k]))
    ensures r.count >= count
    decreases cfg.Headroom(count), |items| - i + 1
  {
    if i == |items| then Outcome([], count, 0, 0)
    else
      var child := items[i];
      assert ItemShaped(CompoundTag(child));
      if "tag" in child then
        assert HoldsContainer(child["tag"]);
        var tag := child["tag"].entries;
        match FirstFailing(cfg.checks, item, tag)
        case Some(j) => Outcome([ItemTagData(count, item.typeName)], count, j + 1, 0)
        case None =>
          if "BlockEntityTag" in tag then
            assert ContainerShaped(tag["BlockEntityTag"]);
            var nested := Walk(cfg, item, tag["BlockEntityTag"].entries, count);
            var rest := WalkItems(cfg, item, items, i + 1, nested.count);
            Outcome(nested.flags + rest.flags, rest.count,
                    |cfg.checks| + nested.checks + rest.checks, nested.calls + rest.calls)
          else
            var rest := WalkItems(cfg, item, items, i + 1, count);
            Outcome(rest.flags, rest.count, |cfg.checks| + rest.checks, rest.calls)
      else
        match FirstFailing(cfg.checks, item, child)
        case Some(j) => Outcome([ItemBaseData(count, item.typeName)], count, j + 1, 0)
        case None =>
          var rest := WalkItems(cfg, item, items, i + 1, count);
          Outcome(rest.flags, rest.count, |cfg.checks| + rest.checks, rest.calls)
  }

  /** Every item NBT the runner may dereference is a compound. */
  predicate WellShaped(e: PacketReceiveEvent) {
    e.packetType == CreativeInventoryAction && e.itemStack.Some? && e.itemStack.value.nbt.Some? ==>
      HoldsContainer(CompoundTag(e.itemStack.value.nbt.value))
  }

  /** The item NBT carries a "BlockEntityTag" (the item simulates a container). */
  predicate HasContainer(e: PacketReceiveEvent) {
    e.packetType == CreativeInventoryAction && e.itemStack.Some? && e.itemStack.value.nbt.Some? &&
    "BlockEntityTag" in e.itemStack.value.nbt.value
  }

  /** One call of the runner's `handle`, with the player's recursion counter at `count`. */
  function HandleSpec(cfg: Config, e: PacketReceiveEvent, count: int): (r: Outcome)
    requires WellShaped(e)
    ensures !HasContainer(e) ==> r.count == count && r.calls == 0
    ensures e.packetType != CreativeInventoryAction ==> r == Outcome([], count, 0, 0)
    ensures e.itemStack.None? || e.itemStack.value.nbt.None? ==> r == Outcome([], count, 0, 0)
  {
    if e.packetType != CreativeInventoryAction then Outcome([], count, 0, 0)
    else if e.itemStack.None? then Outcome([], count, 0, 0)
    else
      var item := e.itemStack.value;
      if item.nbt.None? then Outcome([], count, 0, 0)
      else
        var compound := item.nbt.value;
        if "BlockEntityTag" in compound then
          assert ContainerShaped(compound["BlockEntityTag"]);
          Walk(cfg, item, compound["BlockEntityTag"].entries, 0)
        else
          Outcome(NormalFlags(cfg.checks, item, compound), count, |cfg.checks|, 0)
  }
}
