/** Byte layouts shared by the packet classifier and the Go listener. */
module Bytes {
  import opened Prelude

  /** A 16-bit load on a little-endian host. */
  function Load16(bytes: seq<uint8>, at: nat): uint16
    requires at + 2 <= |bytes|
  {
    bytes[at] as int + 0x100 * (bytes[at + 1] as int)
  }

  function ByteSwap16(x: uint16): uint16 {
    x % 0x100 * 0x100 + x / 0x100
  }

  /** A big-endian field, as the protocol standards define it. */
  function Network16(bytes: seq<uint8>, at: nat): uint16
    requires at + 2 <= |bytes|
  {
    0x100 * (bytes[at] as int) + bytes[at + 1] as int
  }

  /** An 8-byte little-endian store of a value that fits 32 bits. */
  function StoreLong(x: uint32): seq<uint8> {
    [x % 0x100, x / 0x100 % 0x100, x / 0x1_0000 % 0x100, x / 0x100_0000, 0, 0, 0, 0]
  }

  /** Go's binary.LittleEndian.Uint32. */
  function LittleEndianUint32(bytes: seq<uint8>): uint32
    requires |bytes| >= 4
  {
    bytes[0] as int + 0x100 * (bytes[1] as int) + 0x1_0000 * (bytes[2] as int) + 0x100_0000 * (bytes[3] as int)
  }

  /** The first byte is the lowest digit to base 256. */
  lemma LittleEndianDigits(bytes: seq<uint8>)
    requires |bytes| >= 4
    ensures var x := LittleEndianUint32(bytes);
      && x % 0x100 == bytes[0] && x / 0x100 % 0x100 == bytes[1]
      && x / 0x1_0000 % 0x100 == bytes[2] && x / 0x100_0000 == bytes[3]
  {
    var x := LittleEndianUint32(bytes);
    var rest := bytes[1] as int + 0x100 * (bytes[2] as int) + 0x1_0000 * (bytes[3] as int);
    var high := bytes[2] as int + 0x100 * (bytes[3] as int);
    assert x == bytes[0] + 0x100 * rest && rest == bytes[1] + 0x100 * high;
    assert x / 0x100 == rest && rest / 0x100 == high && x / 0x1_0000 == high && high / 0x100 == bytes[3];
  }

  /** Swapping a little-endian load gives the field in network order. */
  lemma SwappedLoad(bytes: seq<uint8>, at: nat)
    requires at + 2 <= |bytes|
    ensures ByteSwap16(Load16(bytes, at)) == Network16(bytes, at)
  {
    assert Load16(bytes, at) % 0x100 == bytes[at];
    assert Load16(bytes, at) / 0x100 == bytes[at + 1];
  }

  /** The listener reads back the value the program stored, whatever padding the record carries. */
  lemma StoreLongReadsBack(x: uint32, padding: seq<uint8>)
    ensures LittleEndianUint32(StoreLong(x) + padding) == x
    ensures |StoreLong(x)| == 8 && LittleEndianUint32(StoreLong(x)[4..]) == 0
  {
    var high := x / 0x1_0000;
    assert x / 0x100 / 0x100 == high && high / 0x100 == x / 0x100_0000;
  }
}
