/**
 * The limits `maxRecursions` and `maxItems` bound the work of one walk:
 * the recursion counter counts every `recursion` call (siblings as well as
 * nested ones), and only calls that find the counter at or below
 * `maxRecursions` reach the item loop.
 */
module CreativeBounds {

  import opened Nbt
  import opened Packets
  import opened CreativeWalk

  /**
   * The accounting of one `recursion` call that started with the counter at
   * `count` and ended with outcome `r`: the counter rose by exactly the
   * number of calls; the call flagged at most once per call; the calls and
   * the `handleCheck` invocations are paid for by the headroom used up (at
   * most `maxItems` children, so `maxItems * |checks|` invocations, per call
   * that got past the recursion limit).
   */
  ghost predicate CallWithin(cfg: Config, count: int, r: Outcome) {
    var used := cfg.Headroom(count) - cfg.Headroom(r.count);
    r.count == count + r.calls &&
    |r.flags| <= r.calls &&
    0 <= used &&
    r.calls <= 1 + used * cfg.ItemBound() &&
    r.checks <= used * cfg.ItemBound() * |cfg.checks|
  }

  /** The same accounting for the item loop of one call over `n` remaining children. */
  ghost predicate LoopWithin(cfg: Config, n: int, count: int, r: Outcome) {
    var used := cfg.Headroom(count) - cfg.Headroom(r.count);
    r.count == count + r.calls &&
    |r.flags| <= r.calls + 1 &&
    0 <= used &&
    r.calls <= n + used * cfg.ItemBound() &&
    r.checks <= n * |cfg.checks| + used * cfg.ItemBound() * |cfg.checks|
  }

  lemma {:induction false} WalkBounds(cfg: Config, item: ItemStack, bet: Compound, count: int)
    requires ContainerShaped(CompoundTag(bet))
    ensures CallWithin(cfg, count, Walk(cfg, item, bet, count))
    decreases cfg.Headroom(count), 0
  {
    var r := Walk(cfg, item, bet, count);
    if count > cfg.maxRecursions || "Items" !in bet || GetCompoundListOrNull(bet, "Items").None? {
    } else {
      var items := GetCompoundListOrNull(bet, "Items").value;
      if |items| <= cfg.maxItems {
        var rest := WalkItems(cfg, item, items, 0, count + 1);
        assert r == Outcome(rest.flags, rest.count, rest.checks, rest.calls + 1);
        WalkItemsBounds(cfg, item, items, 0, count + 1);
        var used := cfg.Headroom(count + 1) - cfg.Headroom(rest.count);
        assert cfg.Headroom(count) - cfg.Headroom(r.count) == used + 1;
        OneMoreRound(|items|, used, cfg.ItemBound(), |cfg.checks|);
      }
    }
  }

  lemma {:induction false} WalkItemsBounds(cfg: Config, item: ItemStack, items: seq<Compound>, i: nat, count: int)
    requires i <= |items| <= cfg.ItemBound()
    requires forall k :: i <= k < |items| ==> ItemShaped(CompoundTag(items[k]))
    ensures LoopWithin(cfg, |items| - i, count, WalkItems(cfg, item, items, i, count))
    decreases cfg.Headroom(count), |items| - i + 1, 1
  {
    if i < |items| {
      var child := items[i];
      assert ItemShaped(CompoundTag(child));
      if "tag" in child {
        assert HoldsContainer(child["tag"]);
      }
      var c := if "tag" in child then child["tag"].entries else child;
      if FirstFailing(cfg.checks, item, c).Some? {
        AtLeastOnce(|items| - i, |cfg.checks|);
      } else if "tag" in child && "BlockEntityTag" in c {
        NestedChildBounds(cfg, item, items, i, count);
      } else {
        WalkItemsBounds(cfg, item, items, i + 1, count);
        Distributes(1, |items| - i - 1, |cfg.checks|);
      }
    }
  }

  /** The step of the item loop where child `i` passes the checks and holds a nested container. */
  lemma {:induction false} NestedChildBounds(cfg: Config, item: ItemStack, items: seq<Compound>, i: nat, count: int)
    requires i < |items| <= cfg.ItemBound()
    requires forall k :: i <= k < |items| ==> ItemShaped(CompoundTag(items[k]))
    requires "tag" in items[i] && items[i]["tag"].CompoundTag?
    requires FirstFailing(cfg.checks, item, items[i]["tag"].entries).None?
    requires "BlockEntityTag" in items[i]["tag"].entries
    ensures LoopWithin(cfg, |items| - i, count, WalkItems(cfg, item, items, i, count))
    decreases cfg.Headroom(count), |items| - i + 1, 0
  {
    var tag := items[i]["tag"].entries;
    assert ItemShaped(CompoundTag(items[i]));
    assert HoldsContainer(items[i]["tag"]);
    assert ContainerShaped(tag["BlockEntityTag"]);
    var bet := tag["BlockEntityTag"].entries;
    var nested := Walk(cfg, item, bet, count);
    var rest := WalkItems(cfg, item, items, i + 1, nested.count);
    assert WalkItems(cfg, item, items, i, count) ==
      Outcome(nested.flags + rest.flags, rest.count,
              |cfg.checks| + nested.checks + rest.checks, nested.calls + rest.calls);
    WalkBounds(cfg, item, bet, count);
    WalkItemsBounds(cfg, item, items, i + 1, nested.count);
    NestedStep(|items| - i, cfg.ItemBound(), |cfg.checks|,
               nested.calls, nested.checks, rest.calls, rest.checks,
               cfg.Headroom(count) - cfg.Headroom(nested.count),
               cfg.Headroom(nested.count) - cfg.Headroom(rest.count));
  }

  lemma Distributes(a: int, b: int, m: int)
    ensures a * m + b * m == (a + b) * m
  {
  }

  lemma AtLeastOnce(n: int, k: nat)
    requires n >= 1
    ensures k <= n * k
  {
  }

  /** The arithmetic of one call that gets past the recursion limit. */
  lemma OneMoreRound(n: nat, used: int, m: nat, k: nat)
    requires n <= m
    ensures n + used * m <= (used + 1) * m
    ensures n * k + used * m * k <= (used + 1) * m * k
  {
  }

  /** The arithmetic of a child that passed the checks and led to a nested call. */
  lemma NestedStep(n: int, m: nat, k: nat, calls1: int, checks1: int, calls2: int, checks2: int, u1: int, u2: int)
    requires calls1 <= 1 + u1 * m && checks1 <= u1 * m * k
    requires calls2 <= (n - 1) + u2 * m && checks2 <= (n - 1) * k + u2 * m * k
    ensures calls1 + calls2 <= n + (u1 + u2) * m
    ensures k + checks1 + checks2 <= n * k + (u1 + u2) * m * k
  {
    Distributes(u1, u2, m);
    Distributes(u1 * m, u2 * m, k);
    Distributes(1, n - 1, k);
  }
}
