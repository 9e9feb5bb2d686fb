/**
 The length-prefixed list of byte strings that carries key packages into an
 add-member call (frame_bytes_list and decode_framed in mls-crypto/src/lib.rs).
 */
module Framing {
  import opened Bits
  import opened Wrappers

  type Bytes = seq<Byte>

  datatype FrameError = TruncatedLength | TruncatedEntry

  /** `(n as u32).to_le_bytes()`: the low four bytes, lowest first. */
  function LittleEndian(n: nat): Bytes {
    [n % 0x100, n / 0x100 % 0x100, n / 0x1_0000 % 0x100, n / 0x100_0000 % 0x100]
  }

  function FromLittleEndian(b: Bytes): nat
    requires |b| == 4
  {
    b[0] as nat + 0x100 * b[1] as nat + 0x1_0000 * b[2] as nat + 0x100_0000 * b[3] as nat
  }

  function Framed(items: seq<Bytes>): Bytes {
    if items == [] then [] else LittleEndian(|items[0]|) + items[0] + Framed(items[1..])
  }

  /** What a framed buffer holds, or what is wrong with its first bad entry. */
  function Unframed(bytes: Bytes): Result<seq<Bytes>, FrameError> {
    if bytes == [] then Ok([])
    else if |bytes| < 4 then Err(TruncatedLength)
    else
      var end := 4 + FromLittleEndian(bytes[..4]);
      if end > |bytes| then Err(TruncatedEntry)
      else Preceded([bytes[4..end]], Unframed(bytes[end..]))
  }

  function Preceded(items: seq<Bytes>, r: Result<seq<Bytes>, FrameError>): Result<seq<Bytes>, FrameError> {
    if r.Ok? then Ok(items + r.value) else r
  }

  predicate LengthsFit(items: seq<Bytes>) {
    forall i | 0 <= i < |items| :: |items[i]| < 0x1_0000_0000
  }

  lemma LengthRoundTrip(n: nat)
    requires n < 0x1_0000_0000
    ensures FromLittleEndian(LittleEndian(n)) == n
  {
    Base256(n);
  }

  lemma LengthBytesRoundTrip(b: Bytes)
    requires |b| == 4
    ensures FromLittleEndian(b) < 0x1_0000_0000 && LittleEndian(FromLittleEndian(b)) == b
  {
    var n := FromLittleEndian(b);
    assert n / 0x100 == b[1] as nat + 0x100 * b[2] as nat + 0x1_0000 * b[3] as nat;
    assert n / 0x1_0000 == b[2] as nat + 0x100 * b[3] as nat;
    assert n / 0x100_0000 == b[3];
  }

  lemma LittleEndianLength(n: nat)
    ensures |LittleEndian(n)| == 4
  {
  }

  /** A buffer that starts with a framed item reads as that item and what the rest holds. */
  lemma FirstItemReads(item: Bytes, rest: Bytes)
    requires |item| < 0x1_0000_0000
    ensures Unframed(LittleEndian(|item|) + item + rest) == Preceded([item], Unframed(rest))
  {
    LengthRoundTrip(|item|);
    LittleEndianLength(|item|);
    hide FromLittleEndian, LittleEndian;
    var prefix, bytes := LittleEndian(|item|), LittleEndian(|item|) + item + rest;
    assert bytes[..4] == prefix && bytes[4..4 + |item|] == item && bytes[4 + |item|..] == rest;
  }

  lemma {:induction false} FramedReadsBack(items: seq<Bytes>)
    requires LengthsFit(items)
    ensures Unframed(Framed(items)) == Ok(items)
  {
    if items != [] {
      FramedReadsBack(items[1..]);
      FirstItemReads(items[0], Framed(items[1..]));
      hide LittleEndian, Unframed;
      assert items == [items[0]] + items[1..];
    }
  }

  /** Conversely, what a buffer reads as, put in front of a framed rest, is framed again. */
  lemma ReadItemWasFramed(bytes: Bytes, end: nat, rest: seq<Bytes>)
    requires 4 <= end <= |bytes| && end == 4 + FromLittleEndian(bytes[..4]) && Framed(rest) == bytes[end..]
    ensures Framed([bytes[4..end]] + rest) == bytes && end < 0x1_0000_0004
  {
    LengthBytesRoundTrip(bytes[..4]);
    hide FromLittleEndian, LittleEndian;
    assert ([bytes[4..end]] + rest)[1..] == rest;
    assert bytes == bytes[..4] + bytes[4..end] + bytes[end..];
  }

  lemma {:induction false} ReadBackWasFramed(bytes: Bytes)
    ensures Unframed(bytes).Ok? ==> LengthsFit(Unframed(bytes).value) && Framed(Unframed(bytes).value) == bytes
    decreases |bytes|
  {
    if Unframed(bytes).Ok? && bytes != [] {
      var end := 4 + FromLittleEndian(bytes[..4]);
      ReadBackWasFramed(bytes[end..]);
      var rest := Unframed(bytes[end..]).value;
      assert Unframed(bytes).value == [bytes[4..end]] + rest;
      ReadItemWasFramed(bytes, end, rest);
      hide FromLittleEndian, Framed, Unframed;
      assert forall i | 0 < i < 1 + |rest| :: ([bytes[4..end]] + rest)[i] == rest[i - 1];
    }
  }

  /** A buffer decodes to a list exactly when it is that list's framing; every other buffer is an error. */
  lemma DecodesExactlyFramings(bytes: Bytes, items: seq<Bytes>)
    ensures Unframed(bytes) == Ok(items) <==> LengthsFit(items) && bytes == Framed(items)
  {
    ReadBackWasFramed(bytes);
    if LengthsFit(items) { FramedReadsBack(items); }
  }

  /**
   Where indices are 32 bits wide the sum of position and length may wrap. It
   never does for an entry that is there, and a wrapped end lies before the
   entry's start, where slicing stops the program: nothing else is ever accepted.
   */
  lemma WrappedEndNeverAccepts(size: nat, at: nat, len: nat)
    requires at <= size < 0x1_0000_0000 && len < 0x1_0000_0000
    ensures at + len <= size ==> (at + len) % 0x1_0000_0000 == at + len
    ensures at + len > size && (at + len) % 0x1_0000_0000 <= size ==> (at + len) % 0x1_0000_0000 < at
  {
    if at + len >= 0x1_0000_0000 { assert (at + len) % 0x1_0000_0000 == at + len - 0x1_0000_0000; }
  }

  /** The framing of a list, byte for byte: each length lowest byte first. */
  lemma FramingBytes()
    ensures Framed([[7, 8], [], [9]]) == [2, 0, 0, 0, 7, 8, 0, 0, 0, 0, 1, 0, 0, 0, 9]
    ensures LittleEndian(0x0102_0304) == [4, 3, 2, 1]
  {
    SmallLengths();
    hide LittleEndian;
    assert Framed([]) == [] && [[9]][1..] == [] && [[], [9]][1..] == [[9]] && [[7, 8], [], [9]][1..] == [[], [9]];
    assert Framed([[9]]) == [1, 0, 0, 0, 9];
    assert Framed([[], [9]]) == [0, 0, 0, 0, 1, 0, 0, 0, 9];
  }

  lemma SmallLengths()
    ensures LittleEndian(0) == [0, 0, 0, 0] && LittleEndian(1) == [1, 0, 0, 0] && LittleEndian(2) == [2, 0, 0, 0]
    ensures LittleEndian(0x0102_0304) == [4, 3, 2, 1]
  {
  }

  method FrameBytesList(items: seq<Bytes>) returns (out: Bytes)
    ensures out == Framed(items)
  {
    out := [];
    for i := 0 to |items|
      invariant out + Framed(items[i..]) == Framed(items)
    {
      assert items[i..][1..] == items[i + 1..];
      out := out + LittleEndian(|items[i]|);
      out := out + items[i];
    }
  }

  lemma NextEntry(bytes: Bytes, i: nat, out: seq<Bytes>, len: nat)
    requires i + 4 + len <= |bytes| && len == FromLittleEndian(bytes[i..i + 4])
    ensures Preceded(out, Unframed(bytes[i..]))
            == Preceded(out + [bytes[i + 4..i + 4 + len]], Unframed(bytes[i + 4 + len..]))
  {
    hide FromLittleEndian;
    var left := bytes[i..];
    assert left[..4] == bytes[i..i + 4] && left[4..4 + len] == bytes[i + 4..i + 4 + len];
    assert left[4 + len..] == bytes[i + 4 + len..];
    var rest, entry := Unframed(bytes[i + 4 + len..]), [bytes[i + 4..i + 4 + len]];
    if rest.Ok? { assert out + (entry + rest.value) == (out + entry) + rest.value; }
  }

  method DecodeFramed(bytes: Bytes) returns (r: Result<seq<Bytes>, FrameError>)
    ensures r == Unframed(bytes)
  {
    hide FromLittleEndian;
    var out: seq<Bytes>, i := [], 0;
    assert bytes[0..] == bytes;
    assert Unframed(bytes).Ok? ==> [] + Unframed(bytes).value == Unframed(bytes).value;
    while i < |bytes|
      invariant i <= |bytes|
      invariant Unframed(bytes) == Preceded(out, Unframed(bytes[i..]))
    {
      if i + 4 > |bytes| { return Err(TruncatedLength); }
      var len := FromLittleEndian(bytes[i..i + 4]);
      assert bytes[i..][..4] == bytes[i..i + 4];
      if i + 4 + len > |bytes| { return Err(TruncatedEntry); }
      NextEntry(bytes, i, out, len);
      out := out + [bytes[i + 4..i + 4 + len]];
      i := i + 4 + len;
    }
    assert bytes[i..] == [] && out + [] == out;
    r := Ok(out);
  }
}
