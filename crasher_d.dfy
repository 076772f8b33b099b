/**
 * CrasherD: rejects oversized frames by the writer index of the inbound
 * buffer, before the packet is decoded further.
 */
module Crasher {

  import opened Numerals
  import opened Packets

  const WRITER_INDEX_PREFIX: string := "writerIndex: "

  /**
   * The flag text, `"writerIndex: " + writerIndex`: the prefix, then a
   * numeral that has a minus sign exactly when the index is negative.
   */
  function WriterIndexMessage(writerIndex: int): (m: string)
    ensures |m| > |WRITER_INDEX_PREFIX| && m[..|WRITER_INDEX_PREFIX|] == WRITER_INDEX_PREFIX
    ensures m[|WRITER_INDEX_PREFIX|] == '-' <==> writerIndex < 0
  {
    WRITER_INDEX_PREFIX + ToDecimal(writerIndex)
  }

  /**
   * The flags `handle` raises for one inbound packet of any type, given the
   * configured `maxBytes`; the player's data plays no part.
   */
  function Handle(event: PacketReceiveEvent, maxBytes: Int32): (flags: seq<string>)
    ensures |flags| <= 1
    ensures flags != [] <==> event.writerIndex > maxBytes
    ensures flags != [] ==> flags[0] == WriterIndexMessage(event.writerIndex)
  {
    if event.writerIndex > maxBytes then [WriterIndexMessage(event.writerIndex)] else []
  }

  /** The inclusive bound: a frame of exactly `maxBytes` passes, one byte more is flagged. */
  lemma BoundIsInclusive(event: PacketReceiveEvent, maxBytes: Int32)
    requires maxBytes < INT_MAX
    ensures Handle(event.(writerIndex := maxBytes), maxBytes) == []
    ensures Handle(event.(writerIndex := maxBytes + 1), maxBytes) == [WriterIndexMessage(maxBytes + 1)]
  {
  }

  /** The packet type plays no part: every inbound packet is measured. */
  lemma AnyPacketType(event: PacketReceiveEvent, t: PacketType, maxBytes: Int32)
    ensures Handle(event.(packetType := t), maxBytes) == Handle(event, maxBytes)
  {
  }

  /** The flag text carries the exact writer index, which reads back from it. */
  lemma FlagCarriesWriterIndex(event: PacketReceiveEvent, maxBytes: Int32)
    requires Handle(event, maxBytes) != []
    ensures Handle(event, maxBytes)[0][|WRITER_INDEX_PREFIX|..] == ToDecimal(event.writerIndex)
    ensures ParseDecimal(Handle(event, maxBytes)[0][|WRITER_INDEX_PREFIX|..]) == event.writerIndex
  {
    DecimalRoundTrip(event.writerIndex);
  }
}
