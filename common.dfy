/** Vocabulary shared by the three audio back-ends: the C integer widths the
    engine computes in, the sample encodings, the render contract and the
    strided copy of rendered samples into a hardware buffer. */
module Audio {
  import opened Arith

  const TWO_32: int := 0x1_0000_0000
  const TWO_64: int := 0x1_0000_0000_0000_0000

  datatype Option<T> = None | Some(value: T)

  /** `uint32_t` / `UINT32` / `UInt32` */
  type U32 = x: int | 0 <= x < 0x1_0000_0000
  /** `uint64_t` / `UINT64` */
  type U64 = x: int | 0 <= x < 0x1_0000_0000_0000_0000

  /** The value an unsigned 32-bit variable holds after storing `x`. */
  function Wrap32(x: int): (r: U32)
    ensures 0 <= x < TWO_32 ==> r == x
    ensures (x - r) % TWO_32 == 0
  {
    x % TWO_32
  }

  /** The value an unsigned 64-bit variable holds after storing `x`. */
  function Wrap64(x: int): (r: U64)
    ensures 0 <= x < TWO_64 ==> r == x
    ensures (x - r) % TWO_64 == 0
  {
    x % TWO_64
  }

  /** A `double` sample as the renderer writes it, by its bit pattern. */
  type Double = bv64
  /** A `float` sample as the hardware buffers hold it, by its bit pattern. */
  type Float = bv32

  /** The bit pattern `memset(…, 0, …)` leaves in a `double`. */
  const ZERO_DOUBLE: Double := 0

  /** The `(float)` cast of a whole sequence, given the cast of one sample. */
  function Narrowed(xs: seq<Double>, narrow: Double -> Float): (r: seq<Float>)
    ensures |r| == |xs|
    ensures forall i :: 0 <= i < |xs| ==> r[i] == narrow(xs[i])
  {
    seq(|xs|, i requires 0 <= i < |xs| => narrow(xs[i]))
  }

  /* ---------------------------------------------------------------------
     The render contract: render_next_2chn_48khz_audio(time, n, left, right)
     fills n samples of each channel. The demo content behind it is not
     part of the model; it is represented by a function from (time, sample
     index) to a stereo frame, and every call is logged.
     --------------------------------------------------------------------- */

  datatype Frame = Frame(left: Double, right: Double)
  datatype RenderCall = RenderCall(timeMicros: U64, sampleCount: nat)

  /** The left samples the renderer produces for one call. */
  function LeftSamples(synth: (U64, nat) -> Frame, t: U64, n: nat): (r: seq<Double>)
    ensures |r| == n
  {
    seq(n, i requires 0 <= i => synth(t, i).left)
  }

  /** The right samples the renderer produces for one call. */
  function RightSamples(synth: (U64, nat) -> Frame, t: U64, n: nat): (r: seq<Double>)
    ensures |r| == n
  {
    seq(n, i requires 0 <= i => synth(t, i).right)
  }

  class Renderer {
    /** what the demo content plays at a given time, sample by sample */
    const synth: (U64, nat) -> Frame
    /** every invocation, in order */
    var calls: seq<RenderCall>

    constructor (synth: (U64, nat) -> Frame)
      ensures this.synth == synth && calls == []
    {
      this.synth := synth;
      calls := [];
    }

    /** Fills the first `sampleCount` entries of both buffers and nothing else. */
    method RenderNext2Chn48kHz(timeMicros: U64, sampleCount: nat, left: array<Double>, right: array<Double>)
      requires left != right
      requires sampleCount <= left.Length && sampleCount <= right.Length
      modifies this, left, right
      ensures calls == old(calls) + [RenderCall(timeMicros, sampleCount)]
      ensures left[..sampleCount] == LeftSamples(synth, timeMicros, sampleCount)
      ensures right[..sampleCount] == RightSamples(synth, timeMicros, sampleCount)
      ensures left[sampleCount..] == old(left[sampleCount..])
      ensures right[sampleCount..] == old(right[sampleCount..])
    {
      for i := 0 to sampleCount
        invariant left[..i] == LeftSamples(synth, timeMicros, i)
        invariant right[..i] == RightSamples(synth, timeMicros, i)
        invariant left[sampleCount..] == old(left[sampleCount..])
        invariant right[sampleCount..] == old(right[sampleCount..])
        invariant calls == old(calls)
      {
        left[i] := synth(timeMicros, i).left;
        right[i] := synth(timeMicros, i).right;
      }
      calls := calls + [RenderCall(timeMicros, sampleCount)];
    }
  }

  /* ---------------------------------------------------------------------
     Strided output: `out.buffer[i * out.stride] = (float) client[i]` for
     i < frame_count, where out.buffer points `base` floats into a
     hardware buffer.
     --------------------------------------------------------------------- */

  /** Address, in floats from the start of the hardware buffer, of frame i. */
  function Slot(base: nat, stride: nat, i: nat): nat
  {
    base + i * stride
  }

  /** p is one of the addresses base, base + stride, …, of the first `count` frames. */
  predicate Strided(p: int, base: nat, stride: nat, count: nat)
    requires stride > 0
  {
    base <= p && (p - base) % stride == 0 && (p - base) / stride < count
  }

  /** A buffer after frame i of `vals` was stored at Slot(base, stride, i). */
  function WriteStrided(s: seq<Float>, base: nat, stride: nat, vals: seq<Float>): (r: seq<Float>)
    requires stride > 0
    ensures |r| == |s|
  {
    seq(|s|, p requires 0 <= p < |s| =>
      if Strided(p, base, stride, |vals|) then vals[(p - base) / stride] else s[p])
  }

  /** Frame i's address is written, and it holds frame i. */
  lemma StridedSlot(base: nat, stride: nat, count: nat, i: nat)
    requires stride > 0 && i < count
    ensures Strided(Slot(base, stride, i), base, stride, count)
    ensures (Slot(base, stride, i) - base) / stride == i
  {
    DivModUnique(i * stride, stride, i, 0);
  }

  /** Only frame addresses are written. */
  lemma StridedOnlySlots(p: int, base: nat, stride: nat, count: nat)
    requires stride > 0 && Strided(p, base, stride, count)
    ensures p == Slot(base, stride, (p - base) / stride)
  {
    var q := (p - base) / stride;
    assert p - base == q * stride + (p - base) % stride;
  }

  /** Frame addresses grow with the frame number. */
  lemma SlotMonotone(base: nat, stride: nat, i: nat, j: nat)
    requires i <= j
    ensures Slot(base, stride, i) <= Slot(base, stride, j)
  {
    assert i * stride <= j * stride by {
      assert (j - i) * stride >= 0;
    }
  }

  /** Extending the write by one frame adds exactly that frame's address. */
  lemma StridedStep(p: int, base: nat, stride: nat, i: nat)
    requires stride > 0
    ensures Strided(p, base, stride, i + 1) <==> Strided(p, base, stride, i) || p == Slot(base, stride, i)
  {
    if p == Slot(base, stride, i) {
      StridedSlot(base, stride, i + 1, i);
    }
    if Strided(p, base, stride, i + 1) && !Strided(p, base, stride, i) {
      StridedOnlySlots(p, base, stride, i + 1);
    }
  }

  /** The strided copy loop: stores `(float) src[i]` at Slot(base, stride, i)
      for every i < count and leaves every other float of `dst` alone. */
  method StridedWrite(dst: array<Float>, base: nat, stride: nat, src: array<Double>, count: nat,
                      narrow: Double -> Float)
    requires stride > 0 && count <= src.Length
    requires count == 0 || Slot(base, stride, count - 1) < dst.Length
    modifies dst
    ensures dst[..] == WriteStrided(old(dst[..]), base, stride, Narrowed(src[..count], narrow))
  {
    var i := 0;
    while i < count
      invariant 0 <= i <= count
      invariant forall p :: 0 <= p < dst.Length ==>
        dst[p] == if Strided(p, base, stride, i) then narrow(src[(p - base) / stride]) else old(dst[p])
    {
      SlotMonotone(base, stride, i, count - 1);
      StridedSlot(base, stride, i + 1, i);
      dst[Slot(base, stride, i)] := narrow(src[i]);
      forall p | 0 <= p < dst.Length
        ensures dst[p] == if Strided(p, base, stride, i + 1) then narrow(src[(p - base) / stride]) else old(dst[p])
      {
        StridedStep(p, base, stride, i);
      }
      i := i + 1;
    }
  }

  /* ---------------------------------------------------------------------
     Stereo interleaving: frame i occupies floats 2i (left) and 2i+1 (right).
     --------------------------------------------------------------------- */

  function Interleave(left: seq<Float>, right: seq<Float>): (r: seq<Float>)
    requires |left| == |right|
    ensures |r| == 2 * |left|
  {
    if left == [] then [] else [left[0], right[0]] + Interleave(left[1..], right[1..])
  }

  /** The left and right channels of an interleaved stereo buffer. */
  function Deinterleave(s: seq<Float>): (r: (seq<Float>, seq<Float>))
    ensures |r.0| == |r.1| == |s| / 2
  {
    (seq(|s| / 2, i requires 0 <= i < |s| / 2 => s[2 * i]),
     seq(|s| / 2, i requires 0 <= i < |s| / 2 => s[2 * i + 1]))
  }

  /** Left frame i sits at float 2i and right frame i at float 2i+1. */
  lemma {:induction false} InterleaveAt(left: seq<Float>, right: seq<Float>, i: nat)
    requires |left| == |right| && i < |left|
    ensures Interleave(left, right)[2 * i] == left[i]
    ensures Interleave(left, right)[2 * i + 1] == right[i]
  {
    if i > 0 {
      InterleaveAt(left[1..], right[1..], i - 1);
    }
  }

  /** A buffer of 2·n floats whose even floats are the left channel and
      whose odd floats are the right channel is their interleaving. */
  lemma InterleavePointwise(s: seq<Float>, left: seq<Float>, right: seq<Float>)
    requires |left| == |right| && |s| == 2 * |left|
    requires forall k :: 0 <= k < |s| ==> s[k] == if k % 2 == 0 then left[k / 2] else right[k / 2]
    ensures s == Interleave(left, right)
  {
    var v := Interleave(left, right);
    forall k | 0 <= k < |s| ensures s[k] == v[k] {
      InterleaveAt(left, right, k / 2);
      assert k == 2 * (k / 2) + k % 2;
    }
  }

  /** De-interleaving an interleaved buffer gives back both channels. */
  lemma InterleaveRoundTrip(left: seq<Float>, right: seq<Float>)
    requires |left| == |right|
    ensures Deinterleave(Interleave(left, right)) == (left, right)
  {
    var s := Interleave(left, right);
    var d := Deinterleave(s);
    assert |s| / 2 == |left|;
    forall i | 0 <= i < |left| ensures d.0[i] == left[i] && d.1[i] == right[i] {
      assert d.0[i] == s[2 * i] && d.1[i] == s[2 * i + 1];
      InterleaveAt(left, right, i);
    }
    assert d.0 == left;
    assert d.1 == right;
  }

  /** With stride 2, base 0 covers the even floats and base 1 the odd ones,
      up to float 2·count. */
  lemma StrideTwo(p: nat, base: nat, count: nat)
    requires base < 2
    ensures Strided(p, base, 2, count) <==> p % 2 == base && p < 2 * count
  {
    if p % 2 == base {
      DivModUnique(p - base, 2, p / 2, 0);
    }
    if base <= p && (p - base) % 2 == 0 {
      DivModUnique(p, 2, (p - base) / 2, base);
    }
  }

  /** A stride-2 write at base 0 or 1 stores frame p / 2 at float p when p
      has that parity and lies below 2·|vals|, and leaves float p otherwise. */
  lemma StrideTwoWriteAt(s: seq<Float>, base: nat, vals: seq<Float>, p: nat)
    requires base < 2 && p < |s|
    ensures WriteStrided(s, base, 2, vals)[p]
      == if p % 2 == base && p < 2 * |vals| then vals[p / 2] else s[p]
  {
    StrideTwo(p, base, |vals|);
    if p % 2 == base && p < 2 * |vals| {
      assert (p - base) / 2 == p / 2;
    }
  }

  /** Float p after the two stride-2 writes. */
  lemma StereoStridesAt(s: seq<Float>, left: seq<Float>, right: seq<Float>, p: nat)
    requires |left| == |right| && |s| >= 2 * |left| && p < |s|
    ensures WriteStrided(WriteStrided(s, 0, 2, left), 1, 2, right)[p]
      == if p < 2 * |left| then Interleave(left, right)[p] else s[p]
  {
    var even := WriteStrided(s, 0, 2, left);
    StrideTwoWriteAt(s, 0, left, p);
    StrideTwoWriteAt(even, 1, right, p);
    if p < 2 * |left| {
      var i := p / 2;
      InterleaveAt(left, right, i);
      if p % 2 == 0 {
        assert p == 2 * i;
      } else {
        assert p == 2 * i + 1;
      }
    }
  }

  /** Two stride-2 writes at bases 0 and 1 of n frames each leave the first
      2·n floats holding the interleaving of the two channels and every
      later float as it was. */
  lemma StereoStridesInterleave(s: seq<Float>, left: seq<Float>, right: seq<Float>)
    requires |left| == |right| && |s| >= 2 * |left|
    ensures WriteStrided(WriteStrided(s, 0, 2, left), 1, 2, right) == Interleave(left, right) + s[2 * |left|..]
  {
    var w := WriteStrided(WriteStrided(s, 0, 2, left), 1, 2, right);
    var v := Interleave(left, right) + s[2 * |left|..];
    forall p | 0 <= p < |s| ensures w[p] == v[p] {
      StereoStridesAt(s, left, right, p);
    }
  }
}
