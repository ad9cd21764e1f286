/** Sixteen-bit PCM as it leaves the browser: clamping, framing and byte order. */
module Pcm {
  import opened Common

  type Byte = b: int | 0 <= b < 256

  type Frame = seq<int>

  predicate IsInt16(sample: int) {
    -32768 <= sample <= 32767
  }

  /** Rounds halves upwards. */
  function Round(x: real): int {
    (x + 0.5).Floor
  }

  function Clamp(x: real): real {
    if x < -1.0 then -1.0 else if x > 1.0 then 1.0 else x
  }

  function Quantize(x: real): (sample: int)
    ensures IsInt16(sample)
    ensures x <= -1.0 ==> sample == -32768
    ensures x >= 1.0 ==> sample == 32767
    ensures x == 0.0 ==> sample == 0
  {
    var clamped := Clamp(x);
    if clamped < 0.0 then Round(clamped * 32768.0) else Round(clamped * 32767.0)
  }

  /** Every sample is the nearest integer to the clamped one at its sign's scale, halves going up, and order is kept. */
  lemma QuantizeIsNearest(x: real, y: real)
    ensures var scale := if Clamp(x) < 0.0 then 32768.0 else 32767.0;
            -0.5 < Quantize(x) as real - Clamp(x) * scale <= 0.5
    ensures x <= y ==> Quantize(x) <= Quantize(y)
  {
    if x <= y {
      FloorKeepsOrder(x, y);
    }
  }

  lemma FloorKeepsOrder(x: real, y: real)
    requires x <= y
    ensures Quantize(x) <= Quantize(y)
  {
    var a, b := Clamp(x), Clamp(y);
    if a < 0.0 <= b {
      assert Quantize(x) <= 0 <= Quantize(y);
    }
  }

  function QuantizeAll(samples: seq<real>): (pcm: seq<int>)
    ensures |pcm| == |samples|
    ensures forall i :: 0 <= i < |samples| ==> pcm[i] == Quantize(samples[i])
  {
    seq(|samples|, i requires 0 <= i < |samples| => Quantize(samples[i]))
  }

  /** Little-endian bytes of the samples. */
  function Bytes(samples: seq<int>): (bytes: seq<Byte>)
    ensures |bytes| == 2 * |samples|
  {
    if |samples| == 0 then []
    else
      var last := samples[|samples| - 1];
      Bytes(samples[..|samples| - 1]) + [last % 65536 % 256, last % 65536 / 256]
  }

  /** The signed value of one little-endian pair. */
  function Signed(low: Byte, high: Byte): (sample: int)
    ensures IsInt16(sample)
  {
    var raw := low + 256 * high;
    if raw < 32768 then raw else raw - 65536
  }

  function Unpack(bytes: seq<Byte>): (samples: seq<int>)
    requires |bytes| % 2 == 0
    ensures |samples| == |bytes| / 2
  {
    if |bytes| == 0 then []
    else
      var n := |bytes|;
      Unpack(bytes[..n - 2]) + [Signed(bytes[n - 2], bytes[n - 1])]
  }

  lemma SignedInvertsSplit(sample: int)
    requires IsInt16(sample)
    ensures Signed(sample % 65536 % 256, sample % 65536 / 256) == sample
  {
    var raw := sample % 65536;
    assert raw % 256 + 256 * (raw / 256) == raw;
    assert raw == if sample >= 0 then sample else sample + 65536;
  }

  lemma {:induction false} UnpackBytes(samples: seq<int>)
    requires forall sample | sample in samples :: IsInt16(sample)
    ensures Unpack(Bytes(samples)) == samples
  {
    if |samples| > 0 {
      var init := samples[..|samples| - 1];
      UnpackBytes(init);
      SignedInvertsSplit(samples[|samples| - 1]);
      assert Bytes(samples)[..2 * |init|] == Bytes(init);
    }
  }

  /** Each sample is two bytes, the low one first, of its value modulo two to the sixteen. */
  lemma {:induction false} BytesAreLittleEndian(samples: seq<int>, i: nat)
    requires i < |samples|
    ensures (Bytes(samples)[2 * i] as int) + 256 * (Bytes(samples)[2 * i + 1] as int) == samples[i] % 65536
    decreases |samples|
  {
    var n := |samples| - 1;
    if i < n {
      BytesAreLittleEndian(samples[..n], i);
    } else {
      var raw := samples[n] % 65536;
      assert raw % 256 + 256 * (raw / 256) == raw;
    }
  }

  lemma {:induction false} BytesConcat(left: seq<int>, right: seq<int>)
    ensures Bytes(left + right) == Bytes(left) + Bytes(right)
  {
    if |right| == 0 {
      assert left + right == left;
    } else {
      var n := |right| - 1;
      assert (left + right)[..|left| + n] == left + right[..n];
      BytesConcat(left, right[..n]);
    }
  }

  /** The full frames that can be cut from the front of the samples. */
  function Frames(pcm: seq<int>, size: nat): (frames: seq<Frame>)
    requires size > 0
    ensures forall i :: 0 <= i < |frames| ==> |frames[i]| == size
    decreases |pcm|
  {
    if |pcm| < size then [] else [pcm[..size]] + Frames(pcm[size..], size)
  }

  /** What is left once the full frames have been cut. */
  function Leftover(pcm: seq<int>, size: nat): (rest: seq<int>)
    requires size > 0
    ensures |rest| < size
    decreases |pcm|
  {
    if |pcm| < size then pcm else Leftover(pcm[size..], size)
  }

  /** Cutting loses nothing and keeps the order. */
  lemma {:induction false} FramesKeepSamples(pcm: seq<int>, size: nat)
    requires size > 0
    ensures Flatten(Frames(pcm, size)) + Leftover(pcm, size) == pcm
    decreases |pcm|
  {
    if |pcm| >= size {
      var head, tail := pcm[..size], pcm[size..];
      FramesKeepSamples(tail, size);
      FlattenConcat([head], Frames(tail, size));
      FlattenSnoc([], head);
      assert [] + [head] == [head];
      var rest := Leftover(tail, size);
      assert (head + Flatten(Frames(tail, size))) + rest == head + (Flatten(Frames(tail, size)) + rest);
    }
  }
}
