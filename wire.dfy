/**
 * The over-the-air command packet: a packed record of four one-byte booleans
 * and three 16-bit signed speeds, laid out field after field with no padding.
 *
 * Two properties of the target are made explicit here, because the receiver
 * fills the record by copying the raw datagram bytes over it:
 *  - an int16 is stored little-endian in two's complement (the AVR layout);
 *  - a bool byte reads as false when it is 0 and as true otherwise.
 */
module Wire {

  /** One byte of the datagram (uint8_t). */
  type Byte = x: int | 0 <= x < 0x100

  /** A signed 16-bit integer (int16_t). */
  type Int16 = x: int | -0x8000 <= x < 0x8000

  /** sizeof(Packet): 4 one-byte booleans and 3 two-byte integers, packed. */
  const PacketSize: nat := 10

  /** One received datagram: exactly sizeof(Packet) bytes. */
  type Frame = b: seq<Byte> | |b| == PacketSize
    witness [0, 0, 0, 0, 0, 0, 0, 0, 0, 0]

  datatype Packet = Packet(
    moveX: bool, speedX: Int16,
    moveY: bool, speedY: Int16,
    moveZ: bool, speedZ: Int16,
    enable: bool)

  /** The stopped, de-energised packet: every flag false, every speed zero. */
  const SafePacket: Packet := Packet(false, 0, false, 0, false, 0, false)

  /** Byte offsets of the fields in the packed layout. */
  const MoveXAt: nat := 0
  const SpeedXAt: nat := 1
  const MoveYAt: nat := 3
  const SpeedYAt: nat := 4
  const MoveZAt: nat := 6
  const SpeedZAt: nat := 7
  const EnableAt: nat := 9

  /** The 16-bit two's-complement bit pattern of v, read as an unsigned number. */
  function Pattern16(v: Int16): (u: nat)
    ensures u < 0x1_0000
  {
    if v < 0 then v + 0x1_0000 else v
  }

  /** The unsigned value of two bytes stored low byte first. */
  function LittleEndian(lo: Byte, hi: Byte): (u: nat)
    ensures u < 0x1_0000
  {
    lo as int + 0x100 * hi as int
  }

  /** Reads a bool stored in one byte. */
  function DecodeBool(b: Byte): bool {
    b != 0
  }

  /** Writes a bool as the byte 0 or 1. */
  function EncodeBool(x: bool): (b: Byte)
    ensures DecodeBool(b) == x
    ensures b == 0 || b == 1
  {
    if x then 1 else 0
  }

  /** Reads a little-endian two's-complement int16 from its low and high bytes. */
  function DecodeInt16(lo: Byte, hi: Byte): (v: Int16)
    ensures Pattern16(v) == LittleEndian(lo, hi)
  {
    var u := LittleEndian(lo, hi);
    if u < 0x8000 then u else u - 0x1_0000
  }

  /** Writes an int16 as its little-endian two's-complement bytes [low, high]. */
  function EncodeInt16(v: Int16): (b: seq<Byte>)
    ensures |b| == 2
    ensures LittleEndian(b[0], b[1]) == Pattern16(v)
  {
    var u := Pattern16(v);
    [u % 0x100, u / 0x100]
  }

  lemma Int16RoundTrip(v: Int16)
    ensures DecodeInt16(EncodeInt16(v)[0], EncodeInt16(v)[1]) == v
  {
  }

  /** Splitting a 16-bit value into bytes recovers the bytes it was built from. */
  lemma {:induction false} SplitBytes(lo: Byte, hi: Byte)
    ensures LittleEndian(lo, hi) % 0x100 == lo
    ensures LittleEndian(lo, hi) / 0x100 == hi
  {
    var u := LittleEndian(lo, hi);
    assert u == hi * 0x100 + lo;
  }

  lemma {:induction false} Int16BytesRoundTrip(lo: Byte, hi: Byte)
    ensures EncodeInt16(DecodeInt16(lo, hi)) == [lo, hi]
  {
    SplitBytes(lo, hi);
    assert Pattern16(DecodeInt16(lo, hi)) == LittleEndian(lo, hi);
  }

  /**
   * Reinterprets the received bytes as a Packet, the way copying them over the
   * packed record does: each field is read from its own offsets only.
   */
  function Decode(bytes: Frame): (p: Packet)
    ensures p.moveX <==> bytes[MoveXAt] != 0
    ensures p.moveY <==> bytes[MoveYAt] != 0
    ensures p.moveZ <==> bytes[MoveZAt] != 0
    ensures p.enable <==> bytes[EnableAt] != 0
    ensures Pattern16(p.speedX) == LittleEndian(bytes[SpeedXAt], bytes[SpeedXAt + 1])
    ensures Pattern16(p.speedY) == LittleEndian(bytes[SpeedYAt], bytes[SpeedYAt + 1])
    ensures Pattern16(p.speedZ) == LittleEndian(bytes[SpeedZAt], bytes[SpeedZAt + 1])
  {
    Packet(
      DecodeBool(bytes[0]), DecodeInt16(bytes[1], bytes[2]),
      DecodeBool(bytes[3]), DecodeInt16(bytes[4], bytes[5]),
      DecodeBool(bytes[6]), DecodeInt16(bytes[7], bytes[8]),
      DecodeBool(bytes[9]))
  }

  /** The byte image of a Packet as the transmitter sends it. */
  function Encode(p: Packet): (bytes: Frame)
    ensures Canonical(bytes)
  {
    [EncodeBool(p.moveX)] + EncodeInt16(p.speedX) +
    [EncodeBool(p.moveY)] + EncodeInt16(p.speedY) +
    [EncodeBool(p.moveZ)] + EncodeInt16(p.speedZ) +
    [EncodeBool(p.enable)]
  }

  /** A byte image whose bool bytes are all 0 or 1, as Encode writes them. */
  predicate Canonical(bytes: Frame) {
    bytes[MoveXAt] <= 1 && bytes[MoveYAt] <= 1 && bytes[MoveZAt] <= 1 && bytes[EnableAt] <= 1
  }

  lemma {:induction false} DecodeEncode(p: Packet)
    ensures Decode(Encode(p)) == p
  {
    Int16RoundTrip(p.speedX);
    Int16RoundTrip(p.speedY);
    Int16RoundTrip(p.speedZ);
  }

  lemma {:induction false} EncodeDecode(bytes: Frame)
    requires Canonical(bytes)
    ensures Encode(Decode(bytes)) == bytes
  {
    Int16BytesRoundTrip(bytes[1], bytes[2]);
    Int16BytesRoundTrip(bytes[4], bytes[5]);
    Int16BytesRoundTrip(bytes[7], bytes[8]);
  }

  /**
   * A datagram with X running forward at 100, Y stopped with speed 316 in its
   * field, Z running backward at -1 (bytes 0xFF 0xFF) and the drivers enabled;
   * a bool byte of 2 still reads as true.
   */
  lemma DecodeExample()
    ensures Decode([1, 100, 0, 0, 60, 1, 2, 0xFF, 0xFF, 1])
         == Packet(true, 100, false, 316, true, -1, true)
  {
  }
}
