/**
 * The named binary tag (NBT) tree attached to an item stack, as far as the
 * creative-inventory checks look into it.
 */
module Nbt {

  import opened Wrappers

  /**
   * A tag: a compound (string keys to tags), a list of tags, or any other
   * leaf (numbers, strings, arrays), whose contents the walk never reads.
   */
  datatype Tag =
    | CompoundTag(entries: map<string, Tag>)
    | ListTag(elems: seq<Tag>)
    | ScalarTag

  type Compound = map<string, Tag>

  /**
   * `getCompoundListTagOrNull(key)`: the elements of the list stored under
   * `key` when it is a list of compounds, and null otherwise (key absent,
   * a leaf, a compound, or a list holding anything but compounds).
   */
  function GetCompoundListOrNull(c: Compound, key: string): (r: Option<seq<Compound>>)
    ensures r.Some? <==> key in c && c[key].ListTag? &&
                         forall k :: 0 <= k < |c[key].elems| ==> c[key].elems[k].CompoundTag?
    ensures r.Some? ==> |r.value| == |c[key].elems| &&
                        forall k :: 0 <= k < |r.value| ==> c[key].elems[k] == CompoundTag(r.value[k])
  {
    if key in c && c[key].ListTag? && forall k :: 0 <= k < |c[key].elems| ==> c[key].elems[k].CompoundTag?
    then
      var elems := c[key].elems;
      Some(seq(|elems|, k requires 0 <= k < |elems| => elems[k].entries))
    else
      None
  }

  /** A list whose elements are exactly the compounds `items` reads back as `items`. */
  lemma CompoundListReadsBack(c: Compound, key: string, items: seq<Compound>)
    requires key in c && c[key].ListTag? && |c[key].elems| == |items|
    requires forall k :: 0 <= k < |items| ==> c[key].elems[k] == CompoundTag(items[k])
    ensures GetCompoundListOrNull(c, key) == Some(items)
  {
    var r := GetCompoundListOrNull(c, key);
    assert r.Some?;
    assert |r.value| == |items|;
    assert forall k :: 0 <= k < |items| ==> r.value[k] == items[k];
    assert r.value == items;
  }

  // The walk looks a compound up under "BlockEntityTag" and "tag" with
  // `getCompoundTagOrNull`, which gives null for any other kind of tag. The
  // predicates below ask for a compound at every such entry of the tree,
  // including entries the walk never reaches; the model does not represent
  // the null.

  /** `t` is a compound whose "BlockEntityTag", if any, is a well-shaped container. */
  predicate HoldsContainer(t: Tag)
    decreases t, 2
  {
    t.CompoundTag? &&
    ("BlockEntityTag" in t.entries ==> ContainerShaped(t.entries["BlockEntityTag"]))
  }

  /** `t` is a compound whose "Items" list (when it is one) holds well-shaped items. */
  predicate ContainerShaped(t: Tag)
    decreases t, 1
  {
    t.CompoundTag? &&
    ("Items" in t.entries && t.entries["Items"].ListTag? ==>
       forall k :: 0 <= k < |t.entries["Items"].elems| ==> ItemShaped(t.entries["Items"].elems[k]))
  }

  /** An item of a container: its "tag", if any, is a compound holding a well-shaped container. */
  predicate ItemShaped(t: Tag)
    decreases t, 0
  {
    t.CompoundTag? && "tag" in t.entries ==> HoldsContainer(t.entries["tag"])
  }
}
