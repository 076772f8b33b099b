/** The decoded inbound packet as the checks see it. */
module Packets {

  import opened Wrappers
  import opened Numerals
  import opened Nbt

  datatype PacketType = CreativeInventoryAction | OtherPacket(id: nat)

  /** An item stack: its type's name and its optional NBT compound. */
  datatype ItemStack = ItemStack(typeName: string, nbt: Option<Compound>)

  /**
   * A received packet: its type, the writer index of its still-encoded
   * buffer, and the item stack the creative-inventory wrapper decodes
   * from it (read only for creative-inventory packets).
   */
  datatype PacketReceiveEvent = PacketReceiveEvent(
    packetType: PacketType,
    writerIndex: Int32,
    itemStack: Option<ItemStack>)
}
