/**
 The hand-written AudioFrame protobuf (voiceRelayAudio.js), with JavaScript's
 32-bit shifts, and the receive-key slot that survives a rekey.
 */
module AudioFrame {
  import opened Bits
  import opened Wrappers

  type Bytes = seq<bv8>

  // ---------------------------------------------------------------- varints

  /** writeVarint: seven bits at a time, low ones first. */
  function Varint(v: bv32): Bytes {
    if v > 0x7f then [((v & 0x7f) | 0x80) as bv8] + Varint(v >> 7) else [(v & 0x7f) as bv8]
  }

  /** `acc | (b & 0x7f) << shift` as JavaScript computes it: the shift count is taken modulo 32. */
  function Accumulate(acc: bv32, b: bv8, shift: bv32): bv32 {
    acc | (((b & 0x7f) as bv32) << (shift & 31))
  }

  /** The decoder's varint loop from `pos`: the value and the position after it. */
  function ReadVarint(bytes: Bytes, pos: nat, acc: bv32, shift: bv32): (bv32, nat)
    requires pos <= |bytes|
    decreases |bytes| - pos
  {
    if pos == |bytes| then (acc, pos)
    else
      var acc' := Accumulate(acc, bytes[pos], shift);
      if bytes[pos] & 0x80 == 0 then (acc', pos + 1) else ReadVarint(bytes, pos + 1, acc', shift + 7)
  }

  /** From `pos` on, `bytes` is `part` followed by `rest`. */
  ghost predicate Next(bytes: Bytes, pos: nat, part: Bytes, rest: Bytes) {
    pos <= |bytes| && bytes[pos..] == part + rest
  }

  lemma Advance(bytes: Bytes, pos: nat, a: Bytes, b: Bytes, rest: Bytes)
    requires Next(bytes, pos, a + b, rest)
    ensures Next(bytes, pos, a, b + rest) && Next(bytes, pos + |a|, b, rest)
  {
    assert (a + b) + rest == a + (b + rest);
    assert bytes[pos + |a|..] == bytes[pos..][|a|..] == b + rest;
  }

  predicate VarintShift(shift: bv32) {
    shift == 0 || shift == 7 || shift == 14 || shift == 21 || shift == 28
  }

  /** Bits of `v` still fit when shifted into place. */
  predicate Fits(v: bv32, shift: bv32)
    requires VarintShift(shift)
  {
    if shift == 0 then true
    else if shift == 7 then v <= 0x1ffffff
    else if shift == 14 then v <= 0x3ffff
    else if shift == 21 then v <= 0x7ff
    else v <= 0xf
  }

  /** The part of a value already read, below the next shift. */
  function Placed(v: bv32, shift: bv32): bv32
    requires VarintShift(shift)
  {
    if shift == 0 then v else if shift == 7 then v << 7 else if shift == 14 then v << 14
    else if shift == 21 then v << 21 else v << 28
  }

  lemma LastGroup(acc: bv32, v: bv32, shift: bv32)
    requires VarintShift(shift) && v <= 0x7f
    ensures Accumulate(acc, (v & 0x7f) as bv8, shift) == acc | Placed(v, shift)
    ensures (v & 0x7f) as bv8 & 0x80 == 0
  {
  }

  lemma OneGroup(acc: bv32, v: bv32, shift: bv32)
    requires VarintShift(shift) && Fits(v, shift) && v > 0x7f
    ensures VarintShift(shift + 7) && Fits(v >> 7, shift + 7)
    ensures Accumulate(acc, ((v & 0x7f) | 0x80) as bv8, shift) | Placed(v >> 7, shift + 7) == acc | Placed(v, shift)
    ensures ((v & 0x7f) | 0x80) as bv8 & 0x80 != 0
  {
  }

  /** Every uint32, one to five bytes long, reads back as written. */
  lemma {:induction false} VarintRoundTrip(bytes: Bytes, pos: nat, v: bv32, rest: Bytes, acc: bv32, shift: bv32)
    requires VarintShift(shift) && Fits(v, shift) && Next(bytes, pos, Varint(v), rest)
    ensures ReadVarint(bytes, pos, acc, shift) == (acc | Placed(v, shift), pos + |Varint(v)|)
    decreases v
  {
    assert bytes[pos] == bytes[pos..][0] == Varint(v)[0];
    if v > 0x7f {
      OneGroup(acc, v, shift);
      Advance(bytes, pos, [((v & 0x7f) | 0x80) as bv8], Varint(v >> 7), rest);
      VarintRoundTrip(bytes, pos + 1, v >> 7, rest, Accumulate(acc, bytes[pos], shift), shift + 7);
    } else {
      LastGroup(acc, v, shift);
    }
  }

  // ---------------------------------------------------------------- frames

  /** A decoded AudioFrame; absent byte fields stay null. */
  datatype Frame = Frame(payload: Option<Bytes>, ssrc: bv32, sequence: bv32, broadcast: bool, signature: Option<Bytes>)

  const NO_FIELDS := Frame(None, 0, 0, false, None)

  /** A length with its top bit set is negative in JavaScript, and the reader would step backwards. */
  datatype DecodeError = NegativeLength

  function SetNumber(f: Frame, field: bv32, val: bv32): Frame {
    if field == 2 then f.(ssrc := val)
    else if field == 3 then f.(sequence := val)
    else if field == 4 then f.(broadcast := val != 0)
    else f
  }

  function SetBytes(f: Frame, field: bv32, data: Bytes): Frame {
    if field == 1 then f.(payload := Some(data)) else if field == 5 then f.(signature := Some(data)) else f
  }

  function Min(a: nat, b: nat): nat { if a < b then a else b }

  /** decodeAudioFrameProto from `pos` on: unknown fields are skipped, an unknown wire type stops the reader. */
  function Decode(bytes: Bytes, pos: nat, f: Frame): Result<Frame, DecodeError>
    requires pos <= |bytes|
    decreases |bytes| - pos
  {
    if pos == |bytes| then Ok(f)
    else
      var (tag, afterTag) := ReadVarint(bytes, pos, 0, 0);
      ReadsForward(bytes, pos, 0, 0);
      ReadsForward(bytes, afterTag, 0, 0);
      var (val, afterVal) := ReadVarint(bytes, afterTag, 0, 0);
      if tag & 7 == 0 then Decode(bytes, afterVal, SetNumber(f, tag >> 3, val))
      else if tag & 7 == 2 then
        var len := Uint32Value(val);
        if len >= 0x8000_0000 then Err(NegativeLength)
        else
          var end := Min(afterVal + len, |bytes|);
          Decode(bytes, end, SetBytes(f, tag >> 3, bytes[afterVal..end]))
      else Ok(f)
  }

  lemma {:induction false} ReadsForward(bytes: Bytes, pos: nat, acc: bv32, shift: bv32)
    requires pos <= |bytes|
    ensures pos <= ReadVarint(bytes, pos, acc, shift).1 <= |bytes|
    ensures pos < |bytes| ==> pos < ReadVarint(bytes, pos, acc, shift).1
    decreases |bytes| - pos
  {
    if pos < |bytes| && bytes[pos] & 0x80 != 0 {
      ReadsForward(bytes, pos + 1, Accumulate(acc, bytes[pos], shift), shift + 7);
    }
  }

  function NumberField(tag: bv32, v: bv32): Bytes {
    Varint(tag) + Varint(v)
  }

  /** A length as writeVarint takes it, `value >>> 0`. */
  function Length(n: nat): bv32 {
    ToUint32(n % 0x1_0000_0000)
  }

  function BytesField(tag: bv32, data: Bytes): Bytes {
    Varint(tag) + (Varint(Length(|data|)) + data)
  }

  /** The signature field, and the flag before it, are written only when there is something to say. */
  function OptionalFields(broadcast: bool, signature: Bytes): Bytes {
    (if broadcast then NumberField(0x20, 1) else []) + (if signature != [] then BytesField(0x2a, signature) else [])
  }

  /** encodeAudioFrameProto: the sequence is kept in int32's non-negative range. */
  function Encode(ssrc: bv32, sequence: bv32, payload: Bytes, broadcast: bool, signature: Bytes): Bytes {
    BytesField(0x0a, payload)
    + (NumberField(0x10, ssrc) + (NumberField(0x18, sequence & 0x7fff_ffff) + OptionalFields(broadcast, signature)))
  }

  lemma NumberStep(bytes: Bytes, pos: nat, tag: bv32, mid: nat, v: bv32, end: nat, f: Frame)
    requires pos < |bytes| && mid <= |bytes| && end <= |bytes| && tag & 7 == 0
    requires ReadVarint(bytes, pos, 0, 0) == (tag, mid) && ReadVarint(bytes, mid, 0, 0) == (v, end)
    ensures Decode(bytes, pos, f) == Decode(bytes, end, SetNumber(f, tag >> 3, v))
  {
    hide Uint32Value, ReadVarint;
  }

  lemma BytesStep(bytes: Bytes, pos: nat, tag: bv32, mid: nat, len: bv32, start: nat, end: nat, f: Frame)
    requires pos < |bytes| && mid <= |bytes| && start <= end <= |bytes| && tag & 7 == 2
    requires Uint32Value(len) == end - start < 0x8000_0000
    requires ReadVarint(bytes, pos, 0, 0) == (tag, mid) && ReadVarint(bytes, mid, 0, 0) == (len, start)
    ensures Decode(bytes, pos, f) == Decode(bytes, end, SetBytes(f, tag >> 3, bytes[start..end]))
  {
    hide Uint32Value, ReadVarint;
  }

  lemma ReadsNumberField(bytes: Bytes, pos: nat, tag: bv32, v: bv32, rest: Bytes, f: Frame)
    requires Next(bytes, pos, NumberField(tag, v), rest) && tag & 7 == 0
    ensures Next(bytes, pos + |NumberField(tag, v)|, [], rest)
    ensures Decode(bytes, pos, f) == Decode(bytes, pos + |NumberField(tag, v)|, SetNumber(f, tag >> 3, v))
  {
    hide Varint, ReadVarint, Decode;
    var mid := ReadsFirst(bytes, pos, tag, Varint(v), rest);
    var end := ReadsFirst(bytes, mid, v, [], rest);
    NumberStep(bytes, pos, tag, mid, v, end, f);
  }

  lemma ReadsFirst(bytes: Bytes, pos: nat, v: bv32, after: Bytes, rest: Bytes) returns (end: nat)
    requires Next(bytes, pos, Varint(v) + after, rest)
    ensures end == pos + |Varint(v)| && pos < |bytes| && end <= |bytes|
    ensures ReadVarint(bytes, pos, 0, 0) == (v, end)
    ensures Next(bytes, end, after, rest) && Next(bytes, end, [], after + rest)
  {
    end := pos + |Varint(v)|;
    Advance(bytes, pos, Varint(v), after, rest);
    VarintRoundTrip(bytes, pos, v, after + rest, 0, 0);
  }

  lemma ReadsBytesField(bytes: Bytes, pos: nat, tag: bv32, data: Bytes, rest: Bytes, f: Frame)
    requires |data| < 0x8000_0000 && Next(bytes, pos, BytesField(tag, data), rest) && tag & 7 == 2
    ensures Next(bytes, pos + |BytesField(tag, data)|, [], rest)
    ensures Decode(bytes, pos, f) == Decode(bytes, pos + |BytesField(tag, data)|, SetBytes(f, tag >> 3, data))
  {
    hide Varint, ReadVarint, Decode, Uint32Value, ToUint32;
    var len := Length(|data|);
    var mid := ReadsFirst(bytes, pos, tag, Varint(len) + data, rest);
    var start := ReadsFirst(bytes, mid, len, data, rest);
    Uint32RoundTrip(|data|);
    assert bytes[start..start + |data|] == bytes[start..][..|data|] == data;
    BytesStep(bytes, pos, tag, mid, len, start, start + |data|, f);
    Advance(bytes, start, data, [], rest);
  }

  lemma DecodeEnd(bytes: Bytes, f: Frame)
    ensures Decode(bytes, |bytes|, f) == Ok(f)
  {
  }

  lemma ReadsOptionalFields(bytes: Bytes, pos: nat, broadcast: bool, signature: Bytes, f: Frame)
    requires |signature| < 0x8000_0000 && Next(bytes, pos, OptionalFields(broadcast, signature), [])
    requires !f.broadcast && f.signature == None
    ensures Decode(bytes, pos, f)
            == Ok(f.(broadcast := broadcast, signature := if signature == [] then None else Some(signature)))
  {
    hide Varint, Decode, Length;
    var d: Bytes := if broadcast then NumberField(0x20, 1) else [];
    var e: Bytes := if signature != [] then BytesField(0x2a, signature) else [];
    Advance(bytes, pos, d, e, []);
    if broadcast { ReadsNumberField(bytes, pos, 0x20, 1, e + [], f); }
    var f' := f.(broadcast := broadcast);
    assert Decode(bytes, pos, f) == Decode(bytes, pos + |d|, f');
    if signature != [] { ReadsBytesField(bytes, pos + |d|, 0x2a, signature, [], f'); }
    DecodeEnd(bytes, f'.(signature := if signature == [] then None else Some(signature)));
  }

  /** Decoding what was encoded gives back the frame; an empty signature reads as none. */
  lemma FrameRoundTrip(ssrc: bv32, sequence: bv32, payload: Bytes, broadcast: bool, signature: Bytes)
    requires |payload| < 0x8000_0000 && |signature| < 0x8000_0000
    ensures Decode(Encode(ssrc, sequence, payload, broadcast, signature), 0, NO_FIELDS)
            == Ok(Frame(Some(payload), ssrc, sequence & 0x7fff_ffff, broadcast,
                        if signature == [] then None else Some(signature)))
  {
    var bytes := Encode(ssrc, sequence, payload, broadcast, signature);
    var kept := sequence & 0x7fff_ffff;
    var a, b, c := BytesField(0x0a, payload), NumberField(0x10, ssrc), NumberField(0x18, kept);
    var d := OptionalFields(broadcast, signature);
    hide Decode, BytesField, NumberField, OptionalFields, Next;
    NextWhole(a, b + (c + d));
    ReadsBytesField(bytes, 0, 0x0a, payload, b + (c + d), NO_FIELDS);
    NextPart(bytes, |a|, b, c + d);
    var f1 := NO_FIELDS.(payload := Some(payload));
    ReadsNumberField(bytes, |a|, 0x10, ssrc, c + d, f1);
    NextPart(bytes, |a| + |b|, c, d);
    var f2 := f1.(ssrc := ssrc);
    ReadsNumberField(bytes, |a| + |b|, 0x18, kept, d, f2);
    NextLast(bytes, |a| + |b| + |c|, d);
    ReadsOptionalFields(bytes, |a| + |b| + |c|, broadcast, signature, f2.(sequence := kept));
  }

  /** The wire format, byte for byte, with the field numbers of AudioFrame and low groups of seven bits first. */
  lemma WireBytes()
    ensures Varint(300) == [0xac, 0x02]
    ensures Encode(1, 2, [0xaa], true, [0xbb])
            == [0x0a, 0x01, 0xaa, 0x10, 0x01, 0x18, 0x02, 0x20, 0x01, 0x2a, 0x01, 0xbb]
  {
    ShortVarints();
    LengthOne();
    hide Varint, Length;
    assert BytesField(0x0a, [0xaa]) == [0x0a, 0x01, 0xaa] && NumberField(0x10, 1) == [0x10, 0x01];
    assert 2 & 0x7fff_ffff == 2 as bv32 && NumberField(0x18, 2) == [0x18, 0x02] && NumberField(0x20, 1) == [0x20, 0x01];
    assert BytesField(0x2a, [0xbb]) == [0x2a, 0x01, 0xbb];
    assert OptionalFields(true, [0xbb]) == [0x20, 0x01, 0x2a, 0x01, 0xbb];
  }

  lemma ShortVarints()
    ensures forall v: bv32 :: v <= 0x7f ==> Varint(v) == [v as bv8]
    ensures Varint(300) == [0xac, 0x02]
  {
    assert (300 as bv32) >> 7 == 2;
  }

  lemma LengthOne()
    ensures Length(1) == 1
  {
    OneInBits();
    hide ToUint32;
  }

  /** A field of another number changes nothing, and any other wire type ends the reading. */
  lemma UnknownFieldsAreSkipped(bytes: Bytes, pos: nat, f: Frame, field: bv32, val: bv32, data: Bytes)
    requires pos < |bytes|
    ensures field !in {2, 3, 4} ==> SetNumber(f, field, val) == f
    ensures field !in {1, 5} ==> SetBytes(f, field, data) == f
    ensures ReadVarint(bytes, pos, 0, 0).0 & 7 !in {0, 2} ==> Decode(bytes, pos, f) == Ok(f)
  {
    hide ReadVarint;
  }

  /** What a number field sets: the flag for any value but zero. */
  lemma NumbersByField(f: Frame, val: bv32)
    ensures SetNumber(f, 2, val) == Frame(f.payload, val, f.sequence, f.broadcast, f.signature)
    ensures SetNumber(f, 3, val) == Frame(f.payload, f.ssrc, val, f.broadcast, f.signature)
    ensures SetNumber(f, 4, val) == Frame(f.payload, f.ssrc, f.sequence, val != 0, f.signature)
  {
  }

  /** A field that promises more than there is gets what there is, and a varint cut short counts as far as it goes. */
  lemma CutShortReads(bytes: Bytes, f: Frame)
    ensures Decode([0x0a, 0x05, 0x01, 0x02], 0, f) == Ok(f.(payload := Some([0x01, 0x02])))
    ensures ReadVarint([0x85], 0, 0, 0) == (5, 1)
  {
    var cut: Bytes := [0x0a, 0x05, 0x01, 0x02];
    assert ReadVarint(cut, 0, 0, 0) == (0x0a, 1) && ReadVarint(cut, 1, 0, 0) == (5, 2);
    FiveIsFive();
    hide ReadVarint, Uint32Value;
    assert cut[2..4] == [0x01, 0x02];
    DecodeEnd(cut, f.(payload := Some([0x01, 0x02])));
    CutVarint();
  }

  lemma FiveIsFive()
    ensures Uint32Value(5) == 5
  {
  }

  lemma CutVarint()
    ensures ReadVarint([0x85], 0, 0, 0) == (5, 1)
  {
    assert ReadVarint([0x85], 1, 5, 7) == (5, 1);
  }

  /** From the sixth byte on the shift count wraps, as JavaScript's does. */
  lemma SixthByteWraps(acc: bv32, b: bv8)
    ensures Accumulate(acc, b, 35) == Accumulate(acc, b, 3)
  {
  }

  lemma NextWhole(part: Bytes, rest: Bytes)
    ensures Next(part + rest, 0, part, rest)
  {
  }

  lemma NextPart(bytes: Bytes, pos: nat, part: Bytes, rest: Bytes)
    requires Next(bytes, pos, [], part + rest)
    ensures Next(bytes, pos, part, rest)
  {
    assert [] + (part + rest) == part + rest;
  }

  lemma NextLast(bytes: Bytes, pos: nat, part: Bytes)
    requires Next(bytes, pos, [], part)
    ensures Next(bytes, pos, part, [])
  {
    assert [] + part == part + [];
  }

  // ---------------------------------------------------------------- where the reader stands

  /** `len` as JavaScript holds it, a signed 32-bit number. */
  function SignedLength(v: bv32): int {
    if Uint32Value(v) < 0x8000_0000 then Uint32Value(v) else Uint32Value(v) - 0x1_0000_0000
  }

  /** The reader's outer loop: at a position, which a negative length may put before the buffer, or done. */
  datatype Reader = At(pos: int) | Done

  /** The inner loop at any position: before the buffer an element is undefined, and reads as a zero byte. */
  function ReadAt(bytes: Bytes, pos: int): (r: (bv32, int))
    requires pos <= |bytes|
    ensures pos <= r.1 <= |bytes|
  {
    if pos < 0 then (0, pos + 1)
    else
      ReadsForward(bytes, pos, 0, 0);
      ReadVarint(bytes, pos, 0, 0)
  }

  /** One round of the outer loop. */
  function Round(bytes: Bytes, r: Reader): Reader {
    if r.Done? || r.pos >= |bytes| then Done
    else
      var (tag, afterTag) := ReadAt(bytes, r.pos);
      var (val, afterVal) := ReadAt(bytes, afterTag);
      if tag & 7 == 0 then At(afterVal)
      else if tag & 7 == 2 then At(afterVal + SignedLength(val))
      else Done
  }

  function Rounds(bytes: Bytes, r: Reader, n: nat): Reader
    decreases n
  {
    if n == 0 then r else Rounds(bytes, Round(bytes, r), n - 1)
  }

  lemma OkHasNoNegativeLength(bytes: Bytes, pos: nat, tag: bv32, mid: nat, len: bv32, start: nat, f: Frame)
    requires pos < |bytes| && mid <= |bytes| && start <= |bytes| && tag & 7 == 2 && Decode(bytes, pos, f).Ok?
    requires ReadVarint(bytes, pos, 0, 0) == (tag, mid) && ReadVarint(bytes, mid, 0, 0) == (len, start)
    ensures SignedLength(len) == Uint32Value(len) < 0x8000_0000
  {
    hide ReadVarint, Uint32Value, SetBytes, SetNumber;
  }

  /** Without a negative length a round ends the reader or moves it forward. */
  lemma RoundMovesOn(bytes: Bytes, pos: nat, f: Frame) returns (next: Frame)
    requires pos < |bytes| && Decode(bytes, pos, f).Ok?
    ensures var r := Round(bytes, At(pos));
            r.Done? || (r.At? && r.pos > pos && (r.pos > |bytes| || Decode(bytes, r.pos, next).Ok?))
  {
    hide Decode, Uint32Value, SignedLength;
    var (tag, afterTag) := ReadVarint(bytes, pos, 0, 0);
    ReadsForward(bytes, pos, 0, 0);
    ReadsForward(bytes, afterTag, 0, 0);
    var (val, afterVal) := ReadVarint(bytes, afterTag, 0, 0);
    hide ReadVarint;
    next := f;
    if tag & 7 == 0 {
      NumberStep(bytes, pos, tag, afterTag, val, afterVal, f);
      next := SetNumber(f, tag >> 3, val);
    } else if tag & 7 == 2 {
      OkHasNoNegativeLength(bytes, pos, tag, afterTag, val, afterVal, f);
      var end := afterVal + Uint32Value(val);
      if end <= |bytes| {
        BytesStep(bytes, pos, tag, afterTag, val, afterVal, end, f);
        next := SetBytes(f, tag >> 3, bytes[afterVal..end]);
      }
    }
  }

  /** Where no length is negative the reader is done after at most one round a byte. */
  lemma {:induction false} ReaderEnds(bytes: Bytes, pos: nat, f: Frame, n: nat)
    requires pos <= |bytes| && Decode(bytes, pos, f).Ok? && n > |bytes| - pos
    ensures Rounds(bytes, At(pos), n) == Done
    decreases |bytes| - pos
  {
    if pos == |bytes| {
      DoneStays(bytes, n - 1);
    } else {
      var next := RoundMovesOn(bytes, pos, f);
      var r := Round(bytes, At(pos));
      hide Decode;
      if r.Done? {
        DoneStays(bytes, n - 1);
      } else if r.pos > |bytes| {
        DoneStays(bytes, n - 2);
      } else {
        ReaderEnds(bytes, r.pos, next, n - 1);
      }
    }
  }

  lemma {:induction false} DoneStays(bytes: Bytes, n: nat)
    ensures Rounds(bytes, Done, n) == Done
  {
    if n > 0 { DoneStays(bytes, n - 1); }
  }

  lemma {:induction false} RoundsAdd(bytes: Bytes, r: Reader, n: nat, m: nat)
    ensures Rounds(bytes, r, n + m) == Rounds(bytes, Rounds(bytes, r, n), m)
    decreases n
  {
    if n > 0 { RoundsAdd(bytes, Round(bytes, r), n - 1, m); }
  }

  ghost predicate Ends(bytes: Bytes, r: Reader) {
    exists m: nat :: Rounds(bytes, r, m) == Done
  }

  /** The reader ends if and only if it ends from wherever it is some rounds later. */
  lemma EndsLater(bytes: Bytes, r: Reader, n: nat)
    ensures Ends(bytes, r) <==> Ends(bytes, Rounds(bytes, r, n))
  {
    if Ends(bytes, r) {
      var m: nat :| Rounds(bytes, r, m) == Done;
      RoundsAdd(bytes, r, n, m);
      RoundsAdd(bytes, r, m, n);
      DoneStays(bytes, n);
      assert Rounds(bytes, Rounds(bytes, r, n), m) == Done;
    }
    if Ends(bytes, Rounds(bytes, r, n)) {
      var m: nat :| Rounds(bytes, Rounds(bytes, r, n), m) == Done;
      RoundsAdd(bytes, r, n, m);
    }
  }

  /** A reader that comes back to where it was never ends. */
  lemma {:induction false} CycleNeverEnds(bytes: Bytes, pos: int, cycle: nat, m: nat)
    requires cycle > 0 && Rounds(bytes, At(pos), cycle) == At(pos)
    ensures Rounds(bytes, At(pos), m) != Done
    decreases m
  {
    if m < cycle {
      RoundsAdd(bytes, At(pos), m, cycle - m);
      DoneStays(bytes, cycle - m);
    } else {
      RoundsAdd(bytes, At(pos), cycle, m - cycle);
      CycleNeverEnds(bytes, pos, cycle, m - cycle);
    }
  }

  /**
   Before the buffer the reader moves two positions a round, zeros skipped as a
   field of number 0: to the start of the buffer, or past the buffer's first varint.
   */
  lemma {:induction false} ComesBack(bytes: Bytes, pos: int)
    requires pos < 0
    ensures Rounds(bytes, At(pos), (1 - pos) / 2) == At(if pos % 2 == 0 then 0 else ReadAt(bytes, 0).1)
    decreases -pos
  {
    hide ReadVarint, SignedLength;
    assert Round(bytes, At(pos)) == At(ReadAt(bytes, pos + 1).1);
    if pos == -1 {
      assert Rounds(bytes, Round(bytes, At(-1)), 0) == Round(bytes, At(-1));
    } else if pos == -2 {
      assert Rounds(bytes, At(0), 0) == At(0);
    } else {
      assert Round(bytes, At(pos)) == At(pos + 2);
      ComesBack(bytes, pos + 2);
      assert (1 - pos) / 2 == 1 + (1 - (pos + 2)) / 2;
    }
  }

  /**
   A length that takes the reader before the buffer: it ends if and only if it lands an
   odd number of bytes before the start and ends when it goes on after the first varint.
   */
  lemma EndsFromBeforeStartIff(bytes: Bytes, n: nat, pos: int)
    requires pos < 0 && Rounds(bytes, At(0), n) == At(pos)
    ensures Ends(bytes, At(0)) <==> pos % 2 != 0 && Ends(bytes, At(ReadAt(bytes, 0).1))
  {
    var back := (1 - pos) / 2;
    ComesBack(bytes, pos);
    hide Round, ReadAt;
    EndsLater(bytes, At(0), n);
    EndsLater(bytes, At(pos), back);
    if pos % 2 == 0 {
      RoundsAdd(bytes, At(0), n, back);
      forall m: nat ensures Rounds(bytes, At(0), m) != Done {
        CycleNeverEnds(bytes, 0, n + back, m);
      }
    }
  }

  /** A payload field whose length is minus six, the size of the field's own header. */
  const LOOPING: Bytes := [0x0a, 0xfa, 0xff, 0xff, 0xff, 0x0f]

  lemma LoopingLength()
    ensures ReadVarint(LOOPING, 0, 0, 0) == (0x0a, 1)
    ensures ReadVarint(LOOPING, 1, 0, 0) == (0xffff_fffa, 6) && SignedLength(0xffff_fffa) == -6
  {
    assert ReadVarint(LOOPING, 6, 0, 35) == (0, 6);
    assert ReadVarint(LOOPING, 5, 0x0fff_fffa, 28) == (0xffff_fffa, 6);
    assert ReadVarint(LOOPING, 4, 0x001f_fffa, 21) == (0xffff_fffa, 6);
    assert ReadVarint(LOOPING, 3, 0x0000_3ffa, 14) == (0xffff_fffa, 6);
    assert ReadVarint(LOOPING, 2, 0x0000_007a, 7) == (0xffff_fffa, 6);
  }

  /** On these six bytes the reader is back at the start after every round: it never ends. */
  lemma ReaderCanLoop()
    ensures !Ends(LOOPING, At(0))
  {
    LoopingLength();
    hide ReadVarint, SignedLength;
    assert Rounds(LOOPING, Round(LOOPING, At(0)), 0) == At(0);
    forall m: nat ensures Rounds(LOOPING, At(0), m) != Done {
      CycleNeverEnds(LOOPING, 0, 1, m);
    }
  }

  // ---------------------------------------------------------------- the loops

  method WriteVarint(buf: Bytes, v: bv32) returns (out: Bytes)
    ensures out == buf + Varint(v)
  {
    out := buf;
    var value := v;
    while value > 0x7f
      invariant out + Varint(value) == buf + Varint(v)
      decreases value
    {
      out := out + [((value & 0x7f) | 0x80) as bv8];
      value := value >> 7;
    }
    out := out + [(value & 0x7f) as bv8];
  }

  method WriteNumberField(buf: Bytes, tag: bv32, v: bv32) returns (out: Bytes)
    ensures out == buf + NumberField(tag, v)
  {
    out := WriteVarint(buf, tag);
    out := WriteVarint(out, v);
  }

  method WriteBytesField(buf: Bytes, tag: bv32, data: Bytes) returns (out: Bytes)
    ensures out == buf + BytesField(tag, data)
  {
    out := WriteVarint(buf, tag);
    out := WriteVarint(out, Length(|data|));
    out := out + data;
  }

  method EncodeFrame(ssrc: bv32, sequence: bv32, payload: Bytes, broadcast: bool, signature: Option<Bytes>)
    returns (buf: Bytes)
    ensures buf == Encode(ssrc, sequence, payload, broadcast, signature.GetOr([]))
  {
    hide NumberField, BytesField;
    buf := WriteBytesField([], 0x0a, payload);
    buf := WriteNumberField(buf, 0x10, ssrc);
    buf := WriteNumberField(buf, 0x18, sequence & 0x7fff_ffff);
    ghost var fixed := buf;
    if broadcast {
      buf := WriteNumberField(buf, 0x20, 1);
    }
    if signature.Some? && |signature.value| > 0 {
      buf := WriteBytesField(buf, 0x2a, signature.value);
    }
    assert buf == fixed + OptionalFields(broadcast, signature.GetOr([]));
  }

  /** The decoder's inner loop. */
  method NextVarint(bytes: Bytes, start: nat) returns (val: bv32, pos: nat)
    requires start <= |bytes|
    ensures (val, pos) == ReadVarint(bytes, start, 0, 0)
    ensures start <= pos <= |bytes| && (start < |bytes| ==> start < pos)
  {
    val, pos := 0, start;
    var shift: bv32 := 0;
    ReadsForward(bytes, start, 0, 0);
    while pos < |bytes|
      invariant start <= pos <= |bytes|
      invariant ReadVarint(bytes, pos, val, shift) == ReadVarint(bytes, start, 0, 0)
      decreases |bytes| - pos
    {
      var b := bytes[pos];
      pos := pos + 1;
      val := Accumulate(val, b, shift);
      shift := shift + 7;
      if b & 0x80 == 0 { return; }
    }
  }

  method DecodeFrame(bytes: Bytes) returns (r: Result<Frame, DecodeError>)
    ensures r == Decode(bytes, 0, NO_FIELDS)
  {
    hide ReadVarint, Uint32Value;
    var pos, f := 0, NO_FIELDS;
    while pos < |bytes|
      invariant pos <= |bytes|
      invariant Decode(bytes, pos, f) == Decode(bytes, 0, NO_FIELDS)
      decreases |bytes| - pos
    {
      var tag, afterTag := NextVarint(bytes, pos);
      if tag & 7 == 0 {
        var val, afterVal := NextVarint(bytes, afterTag);
        f, pos := SetNumber(f, tag >> 3, val), afterVal;
      } else if tag & 7 == 2 {
        var val, afterLen := NextVarint(bytes, afterTag);
        var len := Uint32Value(val);
        if len >= 0x8000_0000 { return Err(NegativeLength); }
        var end := Min(afterLen + len, |bytes|);
        f, pos := SetBytes(f, tag >> 3, bytes[afterLen..end]), end;
      } else {
        break;
      }
    }
    r := Ok(f);
  }
}
