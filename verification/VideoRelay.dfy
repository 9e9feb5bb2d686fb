/**
 The video path of the media relay (media-rust): what one subscriber of a
 screen share is sent, and how often a publisher may send very large frames.
 */
module VideoRelay {
  import opened Bits

  // ---------------------------------------------------------------- keyframe resync

  const MAX_FRAME_AGE_MS: nat := 300

  /** A framed packet: 4-byte size, then the flags byte, then the rest. */
  type Chunk = seq<bv8>

  const DELTA_FLAG: bv8 := 0x01

  /** How the relay sees a chunk: the end of the share, a keyframe, or a delta. */
  datatype Kind = End | Key | Delta

  function KindOf(chunk: Chunk): Kind {
    if chunk == [] then End else if |chunk| > 4 && chunk[4] & DELTA_FLAG == 0 then Key else Delta
  }

  lemma LowBitIsParity(n: bv4)
    ensures (n as nat) % 2 == 0 <==> n & 1 == 0
  {
    NibbleHalves(n);
  }

  lemma NibbleHalves(n: bv4)
    ensures n == 2 * (n >> 1) + (n & 1) && (n >> 1) <= 7 && (n & 1) <= 1
    ensures n as nat == 2 * ((n >> 1) as nat) + (n & 1) as nat
  {
  }

  /** A chunk the relay reads as a frame, by what its flags byte is as a number. */
  predicate EvenFlags(chunk: Chunk) {
    |chunk| > 4 && ByteValue(chunk[4]) % 2 == 0
  }

  predicate OddFlags(chunk: Chunk) {
    |chunk| > 4 && ByteValue(chunk[4]) % 2 == 1
  }

  /**
   What a chunk is: empty, the end; more than four bytes with an even flags byte (0 or 2
   among the flags in use), a keyframe; anything else, a delta.
   */
  lemma KindByFlags(chunk: Chunk)
    ensures KindOf(chunk).End? <==> |chunk| == 0
    ensures KindOf(chunk).Key? <==> EvenFlags(chunk)
    ensures KindOf(chunk).Delta? <==> 0 < |chunk| <= 4 || OddFlags(chunk)
    ensures |chunk| > 4 && chunk[4] in {0, 2} ==> KindOf(chunk).Key?
    ensures |chunk| > 4 && chunk[4] in {1, 3} ==> KindOf(chunk).Delta?
  {
    if |chunk| > 4 {
      var b := chunk[4];
      LowBitIsParity((b & 0xf) as bv4);
      assert ((b & 0xf) as bv4) & 1 == 0 <==> b & 0x01 == 0;
    }
  }

  /** Only bit 0 of the flags byte counts: the end-to-end encryption marker (bit 1) or any other flag changes nothing. */
  lemma OtherFlagsIgnored(chunk: Chunk, flags: bv8)
    requires |chunk| > 4
    ensures KindOf(chunk[4 := chunk[4] | (flags & 0xFE)]) == KindOf(chunk)
  {
    var b := chunk[4];
    assert (b | (flags & 0xFE)) & 0x01 == b & 0x01;
  }

  /** What the broadcast receiver reports: the next frame, its age by then, or that it skipped some. */
  datatype Receipt = Next(ageMs: nat) | Lagged(skipped: nat)

  /** The subscriber's place in the sharer's stream after the first `i` receipts: the frame receipt `i` would deliver. */
  function FrameAt(start: nat, receipts: seq<Receipt>, i: nat): nat
    requires i <= |receipts|
  {
    if i == 0 then start
    else
      var p := FrameAt(start, receipts, i - 1);
      match receipts[i - 1]
      case Next(_) => p + 1
      case Lagged(n) => p + n
  }

  /** One frame written to the subscriber: which receipt it came from and which frame it is. */
  datatype Written = Written(receipt: nat, frame: nat)

  /** The frame was the first received, or follows directly on the frame written before it. */
  ghost predicate Follows(out: seq<Written>, k: nat)
    requires k < |out|
  {
    out[k].receipt == 0 || (k > 0 && out[k].frame == out[k - 1].frame + 1)
  }

  /** A delta written after anything else follows directly on the frame written before it. */
  ghost predicate NoGapBeforeDeltas(stream: seq<Chunk>, out: seq<Written>) {
    forall k :: 0 <= k < |out| && out[k].frame < |stream| && KindOf(stream[out[k].frame]).Delta? ==> Follows(out, k)
  }

  ghost predicate FreshDeltas(stream: seq<Chunk>, receipts: seq<Receipt>, out: seq<Written>) {
    forall w :: w in out ==>
      && w.receipt < |receipts| && receipts[w.receipt].Next? && w.frame < |stream|
      && (KindOf(stream[w.frame]).Key? || receipts[w.receipt].ageMs <= 300)
  }

  ghost predicate AllKeyframes(stream: seq<Chunk>, start: nat, receipts: seq<Receipt>, done: nat, out: seq<Written>)
    requires done <= |receipts|
  {
    forall i :: 0 <= i < done && receipts[i].Next? && FrameAt(start, receipts, i) < |stream|
                && KindOf(stream[FrameAt(start, receipts, i)]).Key?
                ==> Written(i, FrameAt(start, receipts, i)) in out
  }

  /** A frame that came and was written. */
  ghost predicate Sent(start: nat, receipts: seq<Receipt>, i: nat, out: seq<Written>)
    requires i < |receipts|
  {
    receipts[i].Next? && Written(i, FrameAt(start, receipts, i)) in out
  }

  /** A fresh frame received right after one that was written, or first of all, is written too. */
  ghost predicate KeptInStep(start: nat, receipts: seq<Receipt>, i: nat, out: seq<Written>)
    requires i < |receipts|
  {
    receipts[i].Next? && receipts[i].ageMs <= 300 && (i == 0 || Sent(start, receipts, i - 1, out))
    ==> Sent(start, receipts, i, out)
  }

  ghost predicate NothingDroppedInStep(start: nat, receipts: seq<Receipt>, done: nat, out: seq<Written>)
    requires done <= |receipts|
  {
    forall i :: 0 <= i < done ==> KeptInStep(start, receipts, i, out)
  }

  ghost predicate Increasing(out: seq<Written>, bound: nat) {
    && (forall k, l :: 0 <= k < l < |out| ==> out[k].frame < out[l].frame)
    && (forall k :: 0 <= k < |out| ==> out[k].frame < bound)
  }

  /** The subscriber is gone: the share ended (an empty chunk) or the next write would fail. */
  ghost predicate Ended(stream: seq<Chunk>, start: nat, receipts: seq<Receipt>, i: nat, out: seq<Written>, writes: nat)
    requires i < |receipts|
  {
    |out| == writes || (receipts[i].Next? && FrameAt(start, receipts, i) < |stream| && KindOf(stream[FrameAt(start, receipts, i)]).End?)
  }

  /** All that is promised about the frames written for the first `i` receipts. */
  ghost predicate Promises(stream: seq<Chunk>, start: nat, receipts: seq<Receipt>, i: nat, out: seq<Written>)
    requires i <= |receipts|
  {
    && NoGapBeforeDeltas(stream, out)
    && FreshDeltas(stream, receipts, out)
    && AllKeyframes(stream, start, receipts, i, out)
    && Increasing(out, FrameAt(start, receipts, i))
  }

  /** Writing the frame at hand keeps them, if it is a keyframe or fresh with nothing missed before it. */
  lemma WriteKeepsPromises(stream: seq<Chunk>, start: nat, receipts: seq<Receipt>, i: nat, out: seq<Written>)
    requires i < |receipts| && receipts[i].Next? && FrameAt(start, receipts, i) < |stream|
    requires Promises(stream, start, receipts, i, out)
    requires var position := FrameAt(start, receipts, i);
             KindOf(stream[position]).Key?
             || (receipts[i].ageMs <= MAX_FRAME_AGE_MS && (i > 0 ==> out != [] && out[|out| - 1].frame + 1 == position))
    ensures Promises(stream, start, receipts, i + 1, out + [Written(i, FrameAt(start, receipts, i))])
  {
    var w := Written(i, FrameAt(start, receipts, i));
    var out' := out + [w];
    hide KindOf;
    assert out'[|out|] == w && forall x :: x in out' <==> x in out || x == w;
    NoGapGoesOn(stream, out, w);
    assert FreshDeltas(stream, receipts, out') by { hide AllKeyframes, Increasing, FrameAt; }
    assert AllKeyframes(stream, start, receipts, i + 1, out') by { hide FreshDeltas, Increasing, FrameAt; }
    assert Increasing(out', FrameAt(start, receipts, i + 1)) by { hide AllKeyframes, FreshDeltas; }
  }

  lemma NoGapGoesOn(stream: seq<Chunk>, out: seq<Written>, w: Written)
    requires NoGapBeforeDeltas(stream, out)
    requires w.frame < |stream| && KindOf(stream[w.frame]).Delta? ==> w.receipt == 0 || (out != [] && w.frame == out[|out| - 1].frame + 1)
    ensures NoGapBeforeDeltas(stream, out + [w])
  {
    hide KindOf;
    var out' := out + [w];
    forall k | 0 <= k < |out'| && out'[k].frame < |stream| && KindOf(stream[out'[k].frame]).Delta?
      ensures Follows(out', k)
    {
      if k < |out| { assert out'[k] == out[k] && Follows(out, k); }
    }
  }

  /** So does passing over a lag, or over a frame that is no keyframe. */
  lemma SkipKeepsPromises(stream: seq<Chunk>, start: nat, receipts: seq<Receipt>, i: nat, out: seq<Written>)
    requires i < |receipts| && Promises(stream, start, receipts, i, out)
    requires receipts[i].Next? ==> FrameAt(start, receipts, i) < |stream| && !KindOf(stream[FrameAt(start, receipts, i)]).Key?
    ensures Promises(stream, start, receipts, i + 1, out)
  {
  }

  ghost predicate WrittenBefore(out: seq<Written>, i: nat) {
    forall w :: w in out ==> w.receipt < i
  }

  lemma StepKeepsInStep(start: nat, receipts: seq<Receipt>, i: nat, out: seq<Written>, out': seq<Written>)
    requires i < |receipts| && NothingDroppedInStep(start, receipts, i, out) && WrittenBefore(out, i)
    requires out' == out || (receipts[i].Next? && out' == out + [Written(i, FrameAt(start, receipts, i))])
    requires out' == out && receipts[i].Next? && receipts[i].ageMs <= MAX_FRAME_AGE_MS ==> i > 0 && !Sent(start, receipts, i - 1, out)
    ensures NothingDroppedInStep(start, receipts, i + 1, out') && WrittenBefore(out', i + 1)
    ensures Sent(start, receipts, i, out') <==> out' != out
  {
    assert forall w :: w in out' <==> w in out || (out' != out && w == out'[|out|]);
    forall j | 0 <= j <= i ensures KeptInStep(start, receipts, j, out') {
      assert j < i ==> KeptInStep(start, receipts, j, out);
    }
  }

  /** Every frame the receiver reports is one of the stream's. */
  ghost predicate AllDelivered(stream: seq<Chunk>, start: nat, receipts: seq<Receipt>) {
    forall i :: 0 <= i < |receipts| && receipts[i].Next? ==> FrameAt(start, receipts, i) < |stream|
  }

  lemma DeliveredAt(stream: seq<Chunk>, start: nat, receipts: seq<Receipt>, i: nat)
    requires AllDelivered(stream, start, receipts) && i < |receipts|
    ensures receipts[i].Next? ==> FrameAt(start, receipts, i) < |stream|
  {
  }

  lemma NothingYet(stream: seq<Chunk>, start: nat, receipts: seq<Receipt>)
    ensures Promises(stream, start, receipts, 0, []) && NothingDroppedInStep(start, receipts, 0, []) && WrittenBefore([], 0)
  {
  }

  /** A chunk with an odd flags byte written after anything else directly follows the frame written before it. */
  ghost predicate OddFlagsFollow(stream: seq<Chunk>, out: seq<Written>) {
    forall k :: 0 <= k < |out| && out[k].frame < |stream| && OddFlags(stream[out[k].frame]) ==> Follows(out, k)
  }

  /** A received chunk with an even flags byte was written. */
  ghost predicate EvenFlagsWritten(stream: seq<Chunk>, start: nat, receipts: seq<Receipt>, done: nat, out: seq<Written>)
    requires done <= |receipts|
  {
    forall i :: 0 <= i < done && receipts[i].Next? && FrameAt(start, receipts, i) < |stream|
                && EvenFlags(stream[FrameAt(start, receipts, i)])
                ==> Written(i, FrameAt(start, receipts, i)) in out
  }

  /** The promises in terms of the bytes themselves. */
  lemma PromisesOnBytes(stream: seq<Chunk>, start: nat, receipts: seq<Receipt>, done: nat, out: seq<Written>)
    requires done <= |receipts| && Promises(stream, start, receipts, done, out)
    ensures OddFlagsFollow(stream, out) && EvenFlagsWritten(stream, start, receipts, done, out)
  {
    forall k | 0 <= k < |out| && out[k].frame < |stream| && OddFlags(stream[out[k].frame])
      ensures Follows(out, k)
    {
      KindByFlags(stream[out[k].frame]);
    }
    hide KindOf, OddFlags;
    forall i | 0 <= i < done && receipts[i].Next? && FrameAt(start, receipts, i) < |stream| && EvenFlags(stream[FrameAt(start, receipts, i)])
      ensures Written(i, FrameAt(start, receipts, i)) in out
    {
      KindByFlags(stream[FrameAt(start, receipts, i)]);
    }
  }

  /**
   The subscribe loop. Whatever is dropped for age or lost to lag, the stream
   resumes only at a keyframe: every delta written is fresh and, unless it is
   the very first frame received, directly follows the frame written before
   it; every keyframe received until the end is written, and so is every fresh
   delta that comes right after a frame that was.
   */
  method RelayToSubscriber(stream: seq<Chunk>, start: nat, receipts: seq<Receipt>, writes: nat)
    returns (out: seq<Written>, done: nat)
    requires AllDelivered(stream, start, receipts)
    ensures done <= |receipts| && Promises(stream, start, receipts, done, out)
    ensures NothingDroppedInStep(start, receipts, done, out)
    ensures OddFlagsFollow(stream, out) && EvenFlagsWritten(stream, start, receipts, done, out)
    ensures done < |receipts| ==> Ended(stream, start, receipts, done, out, writes)
  {
    NothingYet(stream, start, receipts);
    hide Promises, NothingDroppedInStep, WrittenBefore, Sent, KindOf, AllDelivered, OddFlagsFollow, EvenFlagsWritten;
    out := [];
    var needsResync := false;
    var position := start;
    for i := 0 to |receipts|
      invariant position == FrameAt(start, receipts, i)
      invariant Promises(stream, start, receipts, i, out)
      invariant NothingDroppedInStep(start, receipts, i, out) && WrittenBefore(out, i)
      invariant needsResync ==> i > 0 && !Sent(start, receipts, i - 1, out)
      invariant !needsResync && i > 0 ==> out != [] && out[|out| - 1].frame + 1 == position
    {
      DeliveredAt(stream, start, receipts, i);
      ghost var before := out;
      match receipts[i] {
        case Lagged(n) =>
          SkipKeepsPromises(stream, start, receipts, i, out);
          needsResync := true;
          position := position + n;
        case Next(age) =>
          if KindOf(stream[position]).End? {
            PromisesOnBytes(stream, start, receipts, i, out);
            return out, i;
          }
          var keyframe := KindOf(stream[position]).Key?;
          if needsResync && !keyframe {
            SkipKeepsPromises(stream, start, receipts, i, out);
          } else if !needsResync && !keyframe && age > MAX_FRAME_AGE_MS {
            SkipKeepsPromises(stream, start, receipts, i, out);
            needsResync := true;
          } else {
            needsResync := false;
            if |out| == writes {
              PromisesOnBytes(stream, start, receipts, i, out);
              return out, i;
            }
            WriteKeepsPromises(stream, start, receipts, i, out);
            out := out + [Written(i, position)];
          }
          position := position + 1;
      }
      StepKeepsInStep(start, receipts, i, before, out);
    }
    done := |receipts|;
    PromisesOnBytes(stream, start, receipts, done, out);
  }

  // ---------------------------------------------------------------- large frames

  const LARGE_FRAME_BYTES: nat := 5_000_000
  const MAX_FRAME_BYTES: nat := 25_000_000
  const MAX_LARGE_PER_WINDOW: nat := 10
  const WINDOW_MS: nat := 5000

  datatype Frame = Frame(at: nat, size: nat)

  ghost predicate InOrder(frames: seq<Frame>) {
    forall i, j :: 0 <= i < j < |frames| ==> frames[i].at <= frames[j].at
  }

  ghost predicate TimesInOrder(times: seq<nat>) {
    forall i, j :: 0 <= i < j < |times| ==> times[i] <= times[j]
  }

  /** Arrival times of the large frames among the first `n`. */
  function LargeTimes(frames: seq<Frame>, n: nat): seq<nat>
    requires n <= |frames|
  {
    if n == 0 then []
    else LargeTimes(frames, n - 1) + if frames[n - 1].size > LARGE_FRAME_BYTES then [frames[n - 1].at] else []
  }

  /** Exactly the frames over 5 MB count. */
  lemma {:induction false} LargeMeansOver5MB(frames: seq<Frame>, n: nat)
    requires n <= |frames|
    ensures forall t :: t in LargeTimes(frames, n) <==> exists i :: 0 <= i < n && frames[i].size > 5_000_000 && frames[i].at == t
  {
    if n > 0 {
      LargeMeansOver5MB(frames, n - 1);
      forall t ensures t in LargeTimes(frames, n)
                       <==> exists i :: 0 <= i < n && frames[i].size > 5_000_000 && frames[i].at == t {
        if exists i :: 0 <= i < n && frames[i].size > 5_000_000 && frames[i].at == t {
          var i :| 0 <= i < n && frames[i].size > 5_000_000 && frames[i].at == t;
          assert i < n - 1 ==> t in LargeTimes(frames, n - 1);
        }
      }
    }
  }

  /** Any 21 successive large frames take longer than one window. */
  ghost predicate Spread(times: seq<nat>) {
    forall i :: 0 <= i && i + 20 < |times| ==> times[i + 20] > times[i] + 5000
  }

  /**
   The limiter's bookkeeping: times[current..] fall in this window,
   times[previous..current] in the last one, and the rest ended over a window ago.
   */
  ghost predicate Windows(times: seq<nat>, previous: nat, current: nat, windowStart: nat) {
    && previous <= current <= |times|
    && |times| - current <= MAX_LARGE_PER_WINDOW && current - previous <= MAX_LARGE_PER_WINDOW
    && (forall i :: 0 <= i < current ==> times[i] <= windowStart)
    && (forall i :: 0 <= i < previous ==> windowStart - times[i] > WINDOW_MS)
    && (forall i :: current <= i < |times| ==> windowStart <= times[i])
  }

  ghost predicate UpTo(times: seq<nat>, now: nat) {
    forall i :: 0 <= i < |times| ==> times[i] <= now
  }

  lemma NewWindow(times: seq<nat>, previous: nat, current: nat, windowStart: nat, now: nat)
    requires Windows(times, previous, current, windowStart) && now - windowStart > WINDOW_MS
    requires UpTo(times, now)
    ensures Windows(times, current, |times|, now)
  {
  }

  lemma OneMoreLarge(times: seq<nat>, previous: nat, current: nat, windowStart: nat, now: nat)
    requires Windows(times, previous, current, windowStart) && |times| - current < MAX_LARGE_PER_WINDOW
    requires Spread(times) && TimesInOrder(times) && windowStart <= now && UpTo(times, now)
    ensures Windows(times + [now], previous, current, windowStart)
    ensures Spread(times + [now]) && TimesInOrder(times + [now])
  {
  }

  /** What ends the connection: an empty or oversized frame, or a large one when ten came within the last window. */
  ghost predicate Refused(times: seq<nat>, f: Frame) {
    || f.size == 0 || f.size > 25_000_000
    || (f.size > 5_000_000 && |times| >= 10
        && forall i :: |times| - 10 <= i < |times| ==> times[i] + 5000 >= f.at)
  }

  /** The publisher loop's guards: how many frames it accepts before it drops the connection. */
  method AcceptFrames(start: nat, frames: seq<Frame>) returns (accepted: nat)
    requires InOrder(frames) && forall i :: 0 <= i < |frames| ==> start <= frames[i].at
    ensures accepted <= |frames|
    ensures Spread(LargeTimes(frames, accepted)) && TimesInOrder(LargeTimes(frames, accepted))
    ensures forall i :: 0 <= i < accepted ==> 0 < frames[i].size <= 25_000_000
    ensures accepted < |frames| ==> Refused(LargeTimes(frames, accepted), frames[accepted])
  {
    accepted := 0;
    var windowStart: nat, count: nat := start, 0;
    ghost var times: seq<nat>, current: nat, previous: nat := [], 0, 0;
    while accepted < |frames|
      invariant accepted <= |frames| && times == LargeTimes(frames, accepted)
      invariant forall i :: 0 <= i < accepted ==> 0 < frames[i].size <= 25_000_000
      invariant TimesInOrder(times) && Spread(times)
      invariant Windows(times, previous, current, windowStart) && |times| - current == count
      invariant forall j :: accepted <= j < |frames| ==> windowStart <= frames[j].at && UpTo(times, frames[j].at)
    {
      var f := frames[accepted];
      if f.size == 0 { break; }
      if f.size > MAX_FRAME_BYTES { break; }
      if f.size > LARGE_FRAME_BYTES {
        if f.at - windowStart > WINDOW_MS {
          NewWindow(times, previous, current, windowStart, f.at);
          previous, current := current, |times|;
          windowStart, count := f.at, 0;
        }
        count := count + 1;
        if count > MAX_LARGE_PER_WINDOW { break; }
        OneMoreLarge(times, previous, current, windowStart, f.at);
        times := times + [f.at];
      }
      accepted := accepted + 1;
    }
  }

  /** How many of `times` fall in [from, from + 5000]. */
  function CountIn(times: seq<nat>, from: nat): nat {
    if times == [] then 0
    else CountIn(times[..|times| - 1], from) + if from <= times[|times| - 1] <= from + 5000 then 1 else 0
  }

  /** The times counted lie among the last ones not past the interval. */
  lemma {:induction false} CountBound(times: seq<nat>, from: nat, first: nat)
    requires TimesInOrder(times) && first <= |times|
    requires forall i :: 0 <= i < first ==> times[i] < from
    ensures CountIn(times, from) <= |times| - first
  {
    if |times| > first {
      CountBound(times[..|times| - 1], from, first);
    } else if times != [] {
      CountBound(times[..|times| - 1], from, first - 1);
    }
  }

  /** No 5-second interval, wherever it starts, contains more than 20 accepted large frames. */
  lemma {:induction false} AtMostTwentyInAnyInterval(times: seq<nat>, from: nat)
    requires TimesInOrder(times) && Spread(times)
    ensures CountIn(times, from) <= 20
  {
    var n := |times|;
    if n > 0 && times[n - 1] > from + 5000 {
      AtMostTwentyInAnyInterval(times[..n - 1], from);
    } else if n > 20 {
      var first := n - 20;
      assert times[first - 1 + 20] > times[first - 1] + 5000;
      CountBound(times, from, first);
    } else {
      CountBound(times, from, 0);
    }
  }
}
