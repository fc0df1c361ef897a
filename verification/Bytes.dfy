/** Unsigned machine integers and the byte-order macros of core_mqtt_serializer.c. */
module Bytes {
  type byte = x: int | 0 <= x < 0x100
  type u16 = x: int | 0 <= x < 0x1_0000
  type u32 = x: int | 0 <= x < 0x1_0000_0000

  const U16_MAX: u16 := 0xFFFF

  /** UINT16_HIGH_BYTE and UINT16_LOW_BYTE, most significant byte first. */
  function U16Bytes(x: u16): (b: seq<byte>)
    ensures |b| == 2
  {
    [x / 0x100, x % 0x100]
  }

  /** UINT16_DECODE of the first two bytes. */
  function DecodeU16(b: seq<byte>): u16
    requires |b| >= 2
  {
    (b[0] as int) * 0x100 + b[1] as int
  }

  lemma {:induction false} U16RoundTrip(x: u16, rest: seq<byte>)
    ensures DecodeU16(U16Bytes(x) + rest) == x
  {
  }

  lemma {:induction false} U16Partition(b: seq<byte>)
    requires |b| >= 2
    ensures U16Bytes(DecodeU16(b)) == b[..2]
  {
  }

  /** UINT8_CHECK_BIT, the bit given by its weight. */
  predicate CheckBit(x: byte, weight: nat)
    requires weight in {1, 2, 4, 8}
  {
    x / weight % 2 == 1
  }

  /** UINT8_SET_BIT: or with the bit's weight. */
  function SetBit(x: byte, weight: nat): (y: byte)
    requires weight in {1, 2, 4, 8}
    ensures CheckBit(y, weight)
    ensures y - x == if CheckBit(x, weight) then 0 else weight
  {
    if CheckBit(x, weight) then x else x + weight
  }
}
