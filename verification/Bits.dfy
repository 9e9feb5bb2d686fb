/** Machine numbers as bits, four at a time, and back. */
module Bits {
  type Byte = n: nat | n < 256 witness 0

  function FromNibbles(high: bv4, low: bv4): bv8 {
    ((high as bv8) << 4) | (low as bv8)
  }

  function ToByte(n: nat): bv8
    requires n < 0x100
  {
    FromNibbles((n / 0x10) as bv4, (n % 0x10) as bv4)
  }

  function ByteValue(b: bv8): nat {
    ((b >> 4) & 0xf) as bv4 as nat * 0x10 + (b & 0xf) as bv4 as nat
  }

  function FromBytes(a: bv8, b: bv8, c: bv8, d: bv8): bv32 {
    ((a as bv32) << 24) | ((b as bv32) << 16) | ((c as bv32) << 8) | (d as bv32)
  }

  /** The 32-bit pattern of an unsigned number. */
  function ToUint32(n: nat): bv32
    requires n < 0x1_0000_0000
  {
    FromBytes(ToByte(n / 0x100_0000), ToByte(n / 0x1_0000 % 0x100), ToByte(n / 0x100 % 0x100), ToByte(n % 0x100))
  }

  /** The unsigned number a 32-bit pattern stands for. */
  function Uint32Value(v: bv32): nat {
    ByteValue(((v >> 24) & 0xff) as bv8) * 0x100_0000 + ByteValue(((v >> 16) & 0xff) as bv8) * 0x1_0000
    + ByteValue(((v >> 8) & 0xff) as bv8) * 0x100 + ByteValue((v & 0xff) as bv8)
  }

  /** The highest bits are worth most. */
  lemma BitsAreWorth()
    ensures ByteValue(0x5a) == 0x5a && Uint32Value(0x1234_5678) == 0x1234_5678
  {
  }

  lemma OneInBits()
    ensures ToUint32(1) == 1
  {
    ZeroAndOne();
    OnlyLowestByte();
    hide ToByte, FromBytes;
    assert 1 / 0x100_0000 == 0 && 1 / 0x1_0000 % 0x100 == 0 && 1 / 0x100 % 0x100 == 0 && 1 % 0x100 == 1;
  }

  lemma ZeroAndOne()
    ensures ToByte(0) == 0 && ToByte(1) == 1
  {
    assert FromNibbles(0, 0) == 0 && FromNibbles(0, 1) == 1;
    hide FromNibbles;
    assert 0 / 0x10 == 0 && 1 / 0x10 == 0 && 0 % 0x10 == 0 && 1 % 0x10 == 1;
  }

  lemma OnlyLowestByte()
    ensures FromBytes(0, 0, 0, 1) == 1
  {
  }

  lemma NibbleFits(n: nat)
    requires n < 0x10
    ensures (n as bv4) as nat == n
  {
  }

  lemma NibblesApart(high: bv4, low: bv4)
    ensures ((FromNibbles(high, low) >> 4) & 0xf) as bv4 == high && (FromNibbles(high, low) & 0xf) as bv4 == low
  {
  }

  lemma ByteRoundTrip(n: nat)
    requires n < 0x100
    ensures ByteValue(ToByte(n)) == n
  {
    NibbleFits(n / 0x10);
    NibbleFits(n % 0x10);
    NibblesApart((n / 0x10) as bv4, (n % 0x10) as bv4);
  }

  lemma BytesApart(a: bv8, b: bv8, c: bv8, d: bv8)
    ensures var v := FromBytes(a, b, c, d);
            && ((v >> 24) & 0xff) as bv8 == a && ((v >> 16) & 0xff) as bv8 == b
            && ((v >> 8) & 0xff) as bv8 == c && (v & 0xff) as bv8 == d
  {
  }

  lemma Base256(n: nat)
    ensures n == n / 0x100_0000 * 0x100_0000 + n / 0x1_0000 % 0x100 * 0x1_0000 + n / 0x100 % 0x100 * 0x100 + n % 0x100
  {
    assert n / 0x100 / 0x100 == n / 0x1_0000 && n / 0x1_0000 / 0x100 == n / 0x100_0000;
  }

  lemma ValueOfBytes(a: bv8, b: bv8, c: bv8, d: bv8)
    ensures Uint32Value(FromBytes(a, b, c, d))
            == ByteValue(a) * 0x100_0000 + ByteValue(b) * 0x1_0000 + ByteValue(c) * 0x100 + ByteValue(d)
  {
    BytesApart(a, b, c, d);
  }

  /** Every uint32 survives the trip through its bits. */
  lemma Uint32RoundTrip(n: nat)
    requires n < 0x1_0000_0000
    ensures Uint32Value(ToUint32(n)) == n
  {
    ByteRoundTrip(n / 0x100_0000);
    ByteRoundTrip(n / 0x1_0000 % 0x100);
    ByteRoundTrip(n / 0x100 % 0x100);
    ByteRoundTrip(n % 0x100);
    ValueOfBytes(ToByte(n / 0x100_0000), ToByte(n / 0x1_0000 % 0x100), ToByte(n / 0x100 % 0x100), ToByte(n % 0x100));
    Base256(n);
  }
}
