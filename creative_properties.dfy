/**
 * Properties of the creative-inventory walk: the exact call at which the
 * recursion limit trips, that sibling containers use up the limit like
 * nested ones, that a flag leaves only the current `recursion` call, the
 * one-flag-per-failing-check rule of the non-container path, and the
 * work bound of a whole `handle`.
 */
module CreativeProperties {

  import opened Wrappers
  import opened Numerals
  import opened Nbt
  import opened Packets
  import opened CreativeWalk
  import CreativeBounds

  /** No registered check reports anything about this item. */
  ghost predicate NeverFlags(cfg: Config, item: ItemStack) {
    forall j, c :: 0 <= j < |cfg.checks| ==> !cfg.checks[j](item, c)
  }

  /** `n` copies of the "too many recursions" flag. */
  function TooManyRecursionsTimes(n: nat): seq<Violation> {
    seq(n, _ => TooManyRecursions)
  }

  // ---------------------------------------------------------------------
  // The non-container path

  /** The indices of the checks that report `c`. */
  function FailingChecks(checks: seq<CreativeCheck>, item: ItemStack, c: Compound): set<nat> {
    set j: nat | j < |checks| && checks[j](item, c)
  }

  /** One "failed normal creative nbt check" flag per check that reports the compound. */
  lemma {:induction false} NormalFlagsPerFailingCheck(checks: seq<CreativeCheck>, item: ItemStack, c: Compound)
    ensures |NormalFlags(checks, item, c)| == |FailingChecks(checks, item, c)|
    ensures forall k :: 0 <= k < |NormalFlags(checks, item, c)| ==>
              NormalFlags(checks, item, c)[k] == FailedNormalCheck(item.typeName)
  {
    if checks != [] {
      var init := checks[..|checks| - 1];
      NormalFlagsPerFailingCheck(init, item, c);
      var last := |checks| - 1;
      if checks[last](item, c) {
        assert FailingChecks(checks, item, c) == FailingChecks(init, item, c) + {last};
      } else {
        assert FailingChecks(checks, item, c) == FailingChecks(init, item, c);
      }
    }
  }

  /**
   * Without a "BlockEntityTag", `handle` runs every check on the item's own
   * compound, flags once per check that reports it, asks every check, and
   * leaves the recursion counter alone.
   */
  lemma NonContainerPath(cfg: Config, e: PacketReceiveEvent, count: int)
    requires WellShaped(e)
    requires e.packetType == CreativeInventoryAction && e.itemStack.Some? && e.itemStack.value.nbt.Some?
    requires "BlockEntityTag" !in e.itemStack.value.nbt.value
    ensures var r := HandleSpec(cfg, e, count);
      var item := e.itemStack.value;
      r.count == count && r.calls == 0 && r.checks == |cfg.checks| &&
      |r.flags| == |FailingChecks(cfg.checks, item, item.nbt.value)| &&
      (forall k :: 0 <= k < |r.flags| ==> r.flags[k] == FailedNormalCheck(item.typeName)) &&
      (r.flags == [] <==> forall j :: 0 <= j < |cfg.checks| ==> !cfg.checks[j](item, item.nbt.value))
  {
    var item := e.itemStack.value;
    NormalFlagsPerFailingCheck(cfg.checks, item, item.nbt.value);
    if exists j :: 0 <= j < |cfg.checks| && cfg.checks[j](item, item.nbt.value) {
      var j :| 0 <= j < |cfg.checks| && cfg.checks[j](item, item.nbt.value);
      assert j in FailingChecks(cfg.checks, item, item.nbt.value);
    } else {
      assert FailingChecks(cfg.checks, item, item.nbt.value) == {};
    }
  }

  // ---------------------------------------------------------------------
  // The exits of one recursion call and the dispatch of its item loop

  /**
   * The exits of `recursion` before its item loop, each after exactly one
   * call and no check: a counter already above `maxRecursions` flags "too
   * many recursions"; an "Items" entry that is absent or not a list of
   * compounds gives no flag; a list longer than `maxItems` flags its size.
   */
  lemma WalkEarlyExits(cfg: Config, item: ItemStack, bet: Compound, count: int)
    requires ContainerShaped(CompoundTag(bet))
    ensures count > cfg.maxRecursions ==>
      Walk(cfg, item, bet, count) == Outcome([TooManyRecursions], count + 1, 0, 1)
    ensures count <= cfg.maxRecursions && GetCompoundListOrNull(bet, "Items").None? ==>
      Walk(cfg, item, bet, count) == Outcome([], count + 1, 0, 1)
    ensures var items := GetCompoundListOrNull(bet, "Items");
      count <= cfg.maxRecursions && items.Some? && |items.value| > cfg.maxItems ==>
        Walk(cfg, item, bet, count) == Outcome([TooManyItems(|items.value|)], count + 1, 0, 1)
  {
  }

  /** The compound the item loop hands to the checks: the child's "tag" when it has one, else the child. */
  function CheckedCompound(child: Compound): Compound
    requires ItemShaped(CompoundTag(child))
  {
    if "tag" in child then
      assert HoldsContainer(child["tag"]);
      child["tag"].entries
    else child
  }

  /**
   * When a check reports child `i`, the loop flags once, with the counter
   * as it stands and the kind telling "tag" from base data, after exactly
   * `j + 1` check invocations, and returns: no later child is looked at and
   * no nested call is made.
   */
  lemma FirstFailureEndsCall(cfg: Config, item: ItemStack, items: seq<Compound>, i: nat, count: int, j: nat)
    requires i < |items|
    requires forall k :: i <= k < |items| ==> ItemShaped(CompoundTag(items[k]))
    requires FirstFailing(cfg.checks, item, CheckedCompound(items[i])) == Some(j)
    ensures WalkItems(cfg, item, items, i, count) ==
      Outcome([if "tag" in items[i] then ItemTagData(count, item.typeName) else ItemBaseData(count, item.typeName)],
              count, j + 1, 0)
  {
    assert ItemShaped(CompoundTag(items[i]));
  }

  /**
   * A child that passes every check and holds no nested container costs one
   * invocation per check and leaves the counter and the flags to the rest
   * of the loop; a child without "tag" never leads to a nested call.
   */
  lemma PassingChildGoesOn(cfg: Config, item: ItemStack, items: seq<Compound>, i: nat, count: int)
    requires i < |items|
    requires forall k :: i <= k < |items| ==> ItemShaped(CompoundTag(items[k]))
    requires FirstFailing(cfg.checks, item, CheckedCompound(items[i])).None?
    requires "tag" !in items[i] || "BlockEntityTag" !in CheckedCompound(items[i])
    ensures var rest := WalkItems(cfg, item, items, i + 1, count);
      WalkItems(cfg, item, items, i, count) ==
        Outcome(rest.flags, rest.count, |cfg.checks| + rest.checks, rest.calls)
  {
    assert ItemShaped(CompoundTag(items[i]));
  }

  // ---------------------------------------------------------------------
  // Where the recursion limit trips

  /** `d` containers nested below a container: each holds one item whose tag is the next container. */
  function Chain(d: nat): (c: Compound)
    ensures ContainerShaped(CompoundTag(c))
  {
    if d == 0 then map[]
    else
      var tag := map["BlockEntityTag" := CompoundTag(Chain(d - 1))];
      var child := CompoundTag(map["tag" := CompoundTag(tag)]);
      assert ItemShaped(child);
      map["Items" := ListTag([child])]
  }

  /**
   * A walk over `d + 1` nested containers, entered with the counter at
   * `count`: with `k` calls of headroom left, the call after those `k`
   * flags "too many recursions" and the descent ends there; otherwise all
   * `d + 1` calls pass.
   */
  lemma {:induction false} ChainWalk(cfg: Config, item: ItemStack, d: nat, count: int)
    requires cfg.maxItems >= 1
    requires NeverFlags(cfg, item)
    ensures var k := cfg.Headroom(count);
      Walk(cfg, item, Chain(d), count) ==
        if k <= d then Outcome([TooManyRecursions], count + k + 1, k * |cfg.checks|, k + 1)
        else Outcome([], count + d + 1, d * |cfg.checks|, d + 1)
    decreases d
  {
    if count <= cfg.maxRecursions && d > 0 {
      ChainStep(cfg, item, d, count);
      ChainWalk(cfg, item, d - 1, count + 1);
      assert cfg.Headroom(count) == cfg.Headroom(count + 1) + 1;
      CreativeBounds.Distributes(1, cfg.Headroom(count + 1), |cfg.checks|);
      CreativeBounds.Distributes(1, d - 1, |cfg.checks|);
    }
  }

  /** One level of the chain: the single item passes the checks and leads to the next call. */
  lemma ChainStep(cfg: Config, item: ItemStack, d: nat, count: int)
    requires d > 0 && count <= cfg.maxRecursions && cfg.maxItems >= 1
    requires NeverFlags(cfg, item)
    ensures var nested := Walk(cfg, item, Chain(d - 1), count + 1);
      Walk(cfg, item, Chain(d), count) ==
        Outcome(nested.flags, nested.count, |cfg.checks| + nested.checks, nested.calls + 1)
  {
    var tag := map["BlockEntityTag" := CompoundTag(Chain(d - 1))];
    var child := map["tag" := CompoundTag(tag)];
    CompoundListReadsBack(Chain(d), "Items", [child]);
    assert FirstFailing(cfg.checks, item, tag) == None;
    var nested := Walk(cfg, item, Chain(d - 1), count + 1);
    assert WalkItems(cfg, item, [child], 1, nested.count) == Outcome([], nested.count, 0, 0);
    assert WalkItems(cfg, item, [child], 0, count + 1) ==
      Outcome(nested.flags, nested.count, |cfg.checks| + nested.checks, nested.calls);
  }

  /**
   * After the reset in `handle`, containers nested `d + 1` deep are walked
   * without a flag exactly when `d + 1 <= maxRecursions + 1`: the call that
   * flags is call number `maxRecursions + 2`, because the counter is
   * compared before it is incremented.
   */
  lemma NestedLimitTripsAt(cfg: Config, item: ItemStack, d: nat)
    requires cfg.maxItems >= 1 && cfg.maxRecursions >= 0
    requires NeverFlags(cfg, item)
    ensures var r := Walk(cfg, item, Chain(d), 0);
      (r.flags != [] <==> d + 1 >= cfg.maxRecursions + 2) &&
      (r.flags != [] ==> r.flags == [TooManyRecursions] && r.calls == cfg.maxRecursions + 2) &&
      (r.flags == [] ==> r.calls == d + 1)
  {
    ChainWalk(cfg, item, d, 0);
  }

  // ---------------------------------------------------------------------
  // Siblings use up the limit like nested containers

  /** An item whose tag holds an empty container. */
  const EMPTY_BOX: Compound := map["tag" := CompoundTag(map["BlockEntityTag" := CompoundTag(map[])])]

  /** A container holding `n` items, each an empty container. */
  function Fan(n: nat): (c: Compound)
    ensures ContainerShaped(CompoundTag(c))
  {
    var elems := seq(n, _ => CompoundTag(EMPTY_BOX));
    assert forall k :: 0 <= k < n ==> ItemShaped(elems[k]);
    map["Items" := ListTag(elems)]
  }

  /** The item loop over sibling empty containers from index `i`, with the counter at `count`. */
  lemma {:induction false} FanItemsWalk(cfg: Config, item: ItemStack, n: nat, i: nat, count: int)
    requires i <= n
    requires NeverFlags(cfg, item)
    ensures var tripped := if n - i > cfg.Headroom(count) then n - i - cfg.Headroom(count) else 0;
      WalkItems(cfg, item, seq(n, _ => EMPTY_BOX), i, count) ==
        Outcome(TooManyRecursionsTimes(tripped), count + (n - i), (n - i) * |cfg.checks|, n - i)
    decreases n - i
  {
    if i < n {
      var nested := Walk(cfg, item, map[], count);
      FanStep(cfg, item, n, i, count);
      FanItemsWalk(cfg, item, n, i + 1, count + 1);
      var rest := WalkItems(cfg, item, seq(n, _ => EMPTY_BOX), i + 1, count + 1);
      CreativeBounds.Distributes(1, n - i - 1, |cfg.checks|);
      if count > cfg.maxRecursions {
        assert nested.flags + rest.flags == TooManyRecursionsTimes(n - i);
      }
    }
  }

  /** One sibling of the fan: its tag passes the checks and leads to a call on an empty container. */
  lemma FanStep(cfg: Config, item: ItemStack, n: nat, i: nat, count: int)
    requires i < n
    requires NeverFlags(cfg, item)
    ensures var nested := Walk(cfg, item, map[], count);
      var rest := WalkItems(cfg, item, seq(n, _ => EMPTY_BOX), i + 1, count + 1);
      nested == Outcome(if count > cfg.maxRecursions then [TooManyRecursions] else [], count + 1, 0, 1) &&
      WalkItems(cfg, item, seq(n, _ => EMPTY_BOX), i, count) ==
        Outcome(nested.flags + rest.flags, rest.count, |cfg.checks| + rest.checks, 1 + rest.calls)
  {
    var items := seq(n, _ => EMPTY_BOX);
    var tag := map["BlockEntityTag" := CompoundTag(map[])];
    assert items[i] == EMPTY_BOX;
    assert FirstFailing(cfg.checks, item, tag) == None;
  }

  /**
   * A container holding `n` empty containers, after the reset: the counter
   * ends at `n + 1` although nothing is nested more than two deep, and
   * every sibling past the first `maxRecursions` flags "too many recursions".
   */
  lemma SiblingsCountAsRecursions(cfg: Config, item: ItemStack, n: nat)
    requires cfg.maxRecursions >= 0 && n <= cfg.maxItems
    requires NeverFlags(cfg, item)
    ensures var r := Walk(cfg, item, Fan(n), 0);
      r.count == n + 1 &&
      r.flags == TooManyRecursionsTimes(if n > cfg.maxRecursions then n - cfg.maxRecursions else 0)
  {
    var items := seq(n, _ => EMPTY_BOX);
    CompoundListReadsBack(Fan(n), "Items", items);
    FanItemsWalk(cfg, item, n, 0, 1);
  }

  // ---------------------------------------------------------------------
  // A flag leaves only the current recursion call

  /** An item whose tag holds a container whose one item carries the tag `inner`. */
  function Boxed(inner: Compound): Compound {
    map["tag" := CompoundTag(BoxTag(inner))]
  }

  function BoxTag(inner: Compound): Compound {
    map["BlockEntityTag" := CompoundTag(map["Items" := ListTag([CompoundTag(map["tag" := CompoundTag(inner)])])])]
  }

  /**
   * A container holding two boxes whose inner tags both fail a check:
   * the failure inside the first box returns from that box's `recursion`
   * call only, so the outer loop goes on to the second box and flags again,
   * each flag carrying the counter at that moment.
   */
  lemma FlagReturnsFromCurrentCallOnly(cfg: Config, item: ItemStack, bad: Compound)
    requires cfg.maxRecursions >= 2 && cfg.maxItems >= 2
    requires HoldsContainer(CompoundTag(bad))
    requires FirstFailing(cfg.checks, item, bad).Some?
    requires FirstFailing(cfg.checks, item, BoxTag(bad)).None?
    ensures ContainerShaped(CompoundTag(map["Items" := ListTag([CompoundTag(Boxed(bad)), CompoundTag(Boxed(bad))])]))
    ensures Walk(cfg, item, map["Items" := ListTag([CompoundTag(Boxed(bad)), CompoundTag(Boxed(bad))])], 0).flags ==
              [ItemTagData(2, item.typeName), ItemTagData(3, item.typeName)]
  {
    var inner := map["tag" := CompoundTag(bad)];
    var box := map["Items" := ListTag([CompoundTag(inner)])];
    assert ItemShaped(CompoundTag(inner));
    assert ContainerShaped(CompoundTag(box));
    assert ItemShaped(CompoundTag(Boxed(bad)));
    var outer := map["Items" := ListTag([CompoundTag(Boxed(bad)), CompoundTag(Boxed(bad))])];
    assert ContainerShaped(CompoundTag(outer));
    CompoundListReadsBack(box, "Items", [inner]);
    CompoundListReadsBack(outer, "Items", [Boxed(bad), Boxed(bad)]);
    var j := FirstFailing(cfg.checks, item, bad).value;
    assert Walk(cfg, item, box, 1) == Outcome([ItemTagData(2, item.typeName)], 2, j + 1, 1);
    assert Walk(cfg, item, box, 2) == Outcome([ItemTagData(3, item.typeName)], 3, j + 1, 1);
    var items := [Boxed(bad), Boxed(bad)];
    assert WalkItems(cfg, item, items, 1, 2).flags == [ItemTagData(3, item.typeName)];
  }

  /**
   * Two items of one container whose tags fail a check: the first flag
   * returns from the call that owns the loop, so the second is never asked.
   */
  lemma FlagStopsCurrentLoop(cfg: Config, item: ItemStack, bad: Compound)
    requires cfg.maxRecursions >= 0 && cfg.maxItems >= 2
    requires HoldsContainer(CompoundTag(bad))
    requires FirstFailing(cfg.checks, item, bad).Some?
    ensures ContainerShaped(CompoundTag(map["Items" := ListTag([CompoundTag(map["tag" := CompoundTag(bad)]), CompoundTag(map["tag" := CompoundTag(bad)])])]))
    ensures var r := Walk(cfg, item, map["Items" := ListTag([CompoundTag(map["tag" := CompoundTag(bad)]), CompoundTag(map["tag" := CompoundTag(bad)])])], 0);
      r.flags == [ItemTagData(1, item.typeName)] && r.checks == FirstFailing(cfg.checks, item, bad).value + 1
  {
  }

  // ---------------------------------------------------------------------
  // The whole handle

  /**
   * After the reset, one `handle` of a container item makes at most
   * `1 + (maxRecursions + 1) * maxItems` calls to `recursion` (the counter
   * ends at exactly that number of calls), flags at most once per call and
   * invokes checks at most `(maxRecursions + 1) * maxItems * |checks|` times.
   */
  lemma HandleWorkBound(cfg: Config, e: PacketReceiveEvent, count: int)
    requires WellShaped(e) && HasContainer(e)
    requires cfg.maxRecursions >= 0
    ensures var r := HandleSpec(cfg, e, count);
      r.count == r.calls &&
      |r.flags| <= r.calls &&
      r.calls <= 1 + (cfg.maxRecursions + 1) * cfg.ItemBound() &&
      r.checks <= (cfg.maxRecursions + 1) * cfg.ItemBound() * |cfg.checks|
  {
    var nbt := e.itemStack.value.nbt.value;
    assert ContainerShaped(nbt["BlockEntityTag"]);
    var bet := nbt["BlockEntityTag"].entries;
    CreativeBounds.WalkBounds(cfg, e.itemStack.value, bet, 0);
    var r := Walk(cfg, e.itemStack.value, bet, 0);
    UsedAtMost(cfg.Headroom(0) - cfg.Headroom(r.count), cfg.maxRecursions + 1, cfg.ItemBound(), |cfg.checks|);
  }

  lemma UsedAtMost(used: int, total: int, m: nat, k: nat)
    requires used <= total
    ensures used * m <= total * m
    ensures used * m * k <= total * m * k
  {
  }

  /**
   * Because `handle` resets the counter before a walk, the outcome for a
   * container item does not depend on what the counter held before.
   */
  lemma ResetForgetsEarlierPackets(cfg: Config, e: PacketReceiveEvent, count1: int, count2: int)
    requires WellShaped(e) && HasContainer(e)
    ensures HandleSpec(cfg, e, count1) == HandleSpec(cfg, e, count2)
  {
  }

  // ---------------------------------------------------------------------
  // Flag texts

  /** The flag text tells the kinds of violation apart. */
  lemma MessageTellsKind(v: Violation, w: Violation)
    requires Message(v) == Message(w)
    ensures v.FailedNormalCheck? == w.FailedNormalCheck?
    ensures v.TooManyRecursions? == w.TooManyRecursions?
    ensures v.TooManyItems? == w.TooManyItems?
    ensures v.ItemTagData? == w.ItemTagData?
    ensures v.ItemBaseData? == w.ItemBaseData?
  {
    MessageLetters(v);
    MessageLetters(w);
  }

  /** The letters of a flag text that tell its kind. */
  lemma MessageLetters(v: Violation)
    ensures |Message(v)| > 9
    ensures Message(v)[0] == if v.FailedNormalCheck? then 'f' else if v.TooManyRecursions? || v.TooManyItems? then 't' else 'i'
    ensures v.TooManyRecursions? ==> Message(v)[9] == 'r'
    ensures v.TooManyItems? ==> Message(v)[9] == 'i'
    ensures v.ItemTagData? ==> Message(v)[5] == 't'
    ensures v.ItemBaseData? ==> Message(v)[5] == 'b'
  {
    var s := Message(v);
    if v.FailedNormalCheck? {
      assert s[0] == 'f';
    } else if v.TooManyRecursions? {
      assert s[0] == 't' && s[9] == 'r';
    } else if v.TooManyItems? {
      assert s[0] == 't' && s[9] == 'i';
    } else if v.ItemTagData? {
      assert s[0] == 'i' && s[5] == 't';
    } else {
      assert s[0] == 'i' && s[5] == 'b';
    }
  }

  /** The "too many items" text carries the exact list size. */
  lemma TooManyItemsMessageCarriesSize(a: int, b: int)
    requires Message(TooManyItems(a)) == Message(TooManyItems(b))
    ensures a == b
  {
    var prefix := "too many items (items: ";
    var s := Message(TooManyItems(a));
    assert s[|prefix|..|s| - 1] == ToDecimal(a);
    assert Message(TooManyItems(b))[|prefix|..|s| - 1] == ToDecimal(b);
    DecimalInjective(a, b);
  }
}
