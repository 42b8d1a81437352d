/** The CoreAudio (HAL) back-end: the IOProc that routes the two selected
    hardware channels to the renderer's left and right buffers, and the
    greedy stream and format negotiation that selects those channels. */
module DarwinAudio {
  import opened Audio
  import opened Arith

  /** OSStatus `noErr` */
  const NO_ERR: int := 0

  /** `struct StereoChannelDesc`: the hardware channel numbers (1-based)
      bound to the left and right roles; the clock it also carries is
      represented by the time the callback is handed. */
  datatype StereoChannelDesc = StereoChannelDesc(left: int, right: int)

  /* =====================================================================
     Channel router and callback
     ===================================================================== */

  /** One entry of the AudioBufferList handed to the IOProc; `data` is None
      when mData is NULL. */
  datatype AudioBuffer = AudioBuffer(numberChannels: U32, dataByteSize: U32, data: Option<array<Float>>)

  /** What the HAL guarantees of an output buffer list: no buffer has zero
      channels (the callback divides by the count), a buffer's data holds
      dataByteSize / 4 floats, and two buffers never share memory. */
  predicate ValidBufferList(buffers: seq<AudioBuffer>)
  {
    && (forall k :: 0 <= k < |buffers| ==> buffers[k].numberChannels > 0)
    && (forall k :: 0 <= k < |buffers| && buffers[k].data.Some? ==>
          buffers[k].data.value.Length == buffers[k].dataByteSize / 4)
    && (forall k, k' :: 0 <= k < k' < |buffers| && buffers[k].data.Some? && buffers[k'].data.Some? ==>
          buffers[k].data.value != buffers[k'].data.value)
  }

  /** The hardware memory the callback may write. */
  function HardwareArrays(buffers: seq<AudioBuffer>): set<array<Float>>
  {
    set k | 0 <= k < |buffers| && buffers[k].data.Some? :: buffers[k].data.value
  }

  /** Frames of one channel in a buffer: mDataByteSize / mNumberChannels / sizeof(float). */
  function FrameCount(b: AudioBuffer): nat
    requires b.numberChannels > 0
  {
    b.dataByteSize / b.numberChannels / 4
  }

  /** Where an output is bound: which buffer, and which of its interleaved channels. */
  datatype Location = Location(bufferIndex: nat, offset: nat)

  /** One element of the callback's `output[2]`: buffer NULL is None. */
  datatype Output = Output(buffer: Option<Location>, stride: int, frameCount: int)

  /** `{ NULL, 1, 0 }` */
  const UNBOUND: Output := Output(None, 1, 0)

  /** The running channel number of the first channel of buffer k: channels
      are numbered 1, 2, 3, … across the buffers in list order. */
  function ChannelBase(buffers: seq<AudioBuffer>, k: nat): int
    requires k <= |buffers|
  {
    if k == 0 then 1 else ChannelBase(buffers, k - 1) + buffers[k - 1].numberChannels
  }

  /** The output slot for hardware channel `selected` once the first k
      buffers have been walked: a buffer with data whose channels include
      `selected` binds it, and a later binding replaces an earlier one. */
  function BindUpTo(buffers: seq<AudioBuffer>, selected: int, k: nat): (o: Output)
    requires k <= |buffers|
    requires forall q :: 0 <= q < |buffers| ==> buffers[q].numberChannels > 0
    ensures o.stride > 0
    ensures o.buffer.Some? ==> o.buffer.value.bufferIndex < k
  {
    if k == 0 then UNBOUND
    else
      var b := buffers[k - 1];
      var first := ChannelBase(buffers, k - 1);
      if b.data.Some? && first <= selected < first + b.numberChannels
      then Output(Some(Location(k - 1, selected - first)), b.numberChannels, FrameCount(b))
      else BindUpTo(buffers, selected, k - 1)
  }

  /** The output slot for hardware channel `selected` after the whole list. */
  function Bind(buffers: seq<AudioBuffer>, selected: int): Output
    requires forall q :: 0 <= q < |buffers| ==> buffers[q].numberChannels > 0
  {
    BindUpTo(buffers, selected, |buffers|)
  }

  /** The slot midway through buffer i, after its first j channels. */
  function BindWithin(buffers: seq<AudioBuffer>, selected: int, i: nat, j: nat): Output
    requires i < |buffers| && j <= buffers[i].numberChannels
    requires forall q :: 0 <= q < |buffers| ==> buffers[q].numberChannels > 0
  {
    var b := buffers[i];
    var first := ChannelBase(buffers, i);
    if b.data.Some? && first <= selected < first + j
    then Output(Some(Location(i, selected - first)), b.numberChannels, FrameCount(b))
    else BindUpTo(buffers, selected, i)
  }

  /** Running channel numbers grow with the buffer index. */
  lemma {:induction false} ChannelBaseMonotone(buffers: seq<AudioBuffer>, i: nat, k: nat)
    requires i <= k <= |buffers|
    ensures ChannelBase(buffers, i) + (if i < k then buffers[i].numberChannels else 0) <= ChannelBase(buffers, k)
  {
    if i < k {
      ChannelBaseMonotone(buffers, i, k - 1);
    }
  }

  /** An output is bound to channel j of buffer i exactly when buffer i has
      data, j is one of its channels, and the running number of that channel
      is the selected one; a bound output takes the buffer's channel count as
      stride and its frame count. Otherwise it keeps `{ NULL, 1, 0 }`. */
  lemma {:induction false} BindCharacterization(buffers: seq<AudioBuffer>, selected: int, k: nat, i: nat, j: nat)
    requires k <= |buffers|
    requires forall q :: 0 <= q < |buffers| ==> buffers[q].numberChannels > 0
    ensures BindUpTo(buffers, selected, k).buffer == Some(Location(i, j)) <==>
      (i < k && buffers[i].data.Some? && j < buffers[i].numberChannels && ChannelBase(buffers, i) + j == selected)
    ensures BindUpTo(buffers, selected, k).buffer.Some? ==>
      var loc := BindUpTo(buffers, selected, k).buffer.value;
      && loc.bufferIndex < k
      && BindUpTo(buffers, selected, k).stride == buffers[loc.bufferIndex].numberChannels
      && BindUpTo(buffers, selected, k).frameCount == FrameCount(buffers[loc.bufferIndex])
    ensures BindUpTo(buffers, selected, k).buffer.None? ==> BindUpTo(buffers, selected, k) == UNBOUND
  {
    if k > 0 {
      BindCharacterization(buffers, selected, k - 1, i, j);
      if i < k - 1 {
        ChannelBaseMonotone(buffers, i, k - 1);
      }
    }
  }

  /** The frames of one channel, times the channel count, fit in the
      buffer's floats. */
  lemma ChannelFramesFit(byteSize: nat, channels: nat)
    requires channels > 0
    ensures (byteSize / channels / 4) * channels <= byteSize / 4
  {
    var perChannel := byteSize / channels;
    var q := perChannel / 4;
    QuotientBounds(byteSize, channels);
    QuotientBounds(perChannel, 4);
    // 4·q·channels ≤ perChannel·channels ≤ byteSize
    MulMonotone(4 * q, perChannel, channels);
    assert 4 * (q * channels) == (4 * q) * channels;
    QuotientBounds(byteSize, 4);
  }

  /** Every frame of channel `offset` of a buffer lies inside its floats. */
  lemma FramesFitBuffer(byteSize: nat, channels: nat, offset: nat, frame: nat)
    requires channels > 0 && offset < channels && frame < byteSize / channels / 4
    ensures offset + frame * channels < byteSize / 4
  {
    var q := byteSize / channels / 4;
    ChannelFramesFit(byteSize, channels);
    // frame ≤ q − 1, so frame·channels ≤ q·channels − channels
    MulMonotone(frame, q - 1, channels);
    assert (q - 1) * channels == q * channels - channels;
  }

  /** The last frame of a buffer's channel `offset` lies inside its data. */
  lemma LastFrameFits(b: AudioBuffer, offset: nat)
    requires b.numberChannels > 0 && offset < b.numberChannels && FrameCount(b) > 0
    ensures Slot(offset, b.numberChannels, FrameCount(b) - 1) < b.dataByteSize / 4
  {
    FramesFitBuffer(b.dataByteSize, b.numberChannels, offset, FrameCount(b) - 1);
  }

  /** The callback's first loop: walks every channel of every buffer with a
      running channel number and binds `output[0]` / `output[1]`. */
  method BindOutputs(buffers: seq<AudioBuffer>, selected: StereoChannelDesc) returns (left: Output, right: Output)
    requires forall q :: 0 <= q < |buffers| ==> buffers[q].numberChannels > 0
    ensures left == Bind(buffers, selected.left)
    ensures right == Bind(buffers, selected.right)
  {
    var channels := [selected.left, selected.right];
    var output := new Output[2](_ => UNBOUND);
    var currentChannel := 1;
    var i := 0;
    while i < |buffers|
      invariant 0 <= i <= |buffers|
      invariant currentChannel == ChannelBase(buffers, i)
      invariant forall oi :: 0 <= oi < 2 ==> output[oi] == BindUpTo(buffers, channels[oi], i)
    {
      var buffer := buffers[i];
      var frameCount := buffer.dataByteSize / buffer.numberChannels / 4;
      var stride := buffer.numberChannels;
      var j := 0;
      while j < buffer.numberChannels
        invariant 0 <= j <= buffer.numberChannels
        invariant currentChannel == ChannelBase(buffers, i) + j
        invariant forall oi :: 0 <= oi < 2 ==> output[oi] == BindWithin(buffers, channels[oi], i, j)
      {
        if buffer.data.Some? {
          for oi := 0 to 2
            invariant forall o :: 0 <= o < oi ==> output[o] == BindWithin(buffers, channels[o], i, j + 1)
            invariant forall o :: oi <= o < 2 ==> output[o] == BindWithin(buffers, channels[o], i, j)
          {
            if currentChannel == channels[oi] {
              output[oi] := Output(Some(Location(i, j)), stride, frameCount);
            }
          }
        }
        currentChannel := currentChannel + 1;
        j := j + 1;
      }
      i := i + 1;
    }
    left, right := output[0], output[1];
  }

  /** The callback gives up (logs, returns noErr, renders nothing) when the
      two frame counts differ or either output stayed unbound. */
  predicate Skipped(left: Output, right: Output)
  {
    left.frameCount != right.frameCount || left.buffer.None? || right.buffer.None?
  }

  /** Running channel numbers start at 1, so hardware channel 0 is never
      bound, and a role selecting it makes every callback give up: the
      device then plays nothing. */
  lemma ChannelZeroNeverBinds(buffers: seq<AudioBuffer>, other: Output)
    requires forall q :: 0 <= q < |buffers| ==> buffers[q].numberChannels > 0
    ensures Bind(buffers, 0) == UNBOUND
    ensures Skipped(Bind(buffers, 0), other) && Skipped(other, Bind(buffers, 0))
  {
    var o := Bind(buffers, 0);
    BindCharacterization(buffers, 0, |buffers|, 0, 0);
    if o.buffer.Some? {
      var loc := o.buffer.value;
      BindCharacterization(buffers, 0, |buffers|, loc.bufferIndex, loc.offset);
      ChannelBaseMonotone(buffers, 0, loc.bufferIndex);
      assert false;
    }
  }

  /** A hardware buffer after the callback: the left output's frames were
      written first, then the right output's. */
  function Routed(s: seq<Float>, k: nat, left: Output, right: Output, lv: seq<Float>, rv: seq<Float>): seq<Float>
    requires left.stride > 0 && right.stride > 0
  {
    var afterLeft :=
      if left.buffer.Some? && left.buffer.value.bufferIndex == k
      then WriteStrided(s, left.buffer.value.offset, left.stride, lv) else s;
    if right.buffer.Some? && right.buffer.value.bufferIndex == k
    then WriteStrided(afterLeft, right.buffer.value.offset, right.stride, rv) else afterLeft
  }

  /** The right output's frames are written over the left output's. */
  lemma RoutedRightLast(s: seq<Float>, k: nat, left: Output, right: Output, lv: seq<Float>, rv: seq<Float>)
    requires left.stride > 0 && right.stride > 0
    ensures Routed(s, k, left, right, lv, rv) ==
      if right.buffer.Some? && right.buffer.value.bufferIndex == k
      then WriteStrided(Routed(s, k, left, UNBOUND, lv, rv), right.buffer.value.offset, right.stride, rv)
      else Routed(s, k, left, UNBOUND, lv, rv)
  {
  }

  /** audio_callback: binds the selected channels, and unless the bindings
      disagree, zeroes two scratch buffers of frame_count samples, renders
      once at the output time, and copies left and right with their strides
      into the hardware buffers. `outputTimeMicros` is the output time
      stamp's host time converted by the clock. */
  method AudioCallback(selected: StereoChannelDesc, outputTimeMicros: U64, buffers: seq<AudioBuffer>,
                       renderer: Renderer, narrow: Double -> Float) returns (status: int)
    requires ValidBufferList(buffers)
    modifies renderer, HardwareArrays(buffers)
    ensures status == NO_ERR
    ensures
      var l, r := Bind(buffers, selected.left), Bind(buffers, selected.right);
      if Skipped(l, r) then
        && renderer.calls == old(renderer.calls)
        && forall k :: 0 <= k < |buffers| && buffers[k].data.Some? ==>
             buffers[k].data.value[..] == old(buffers[k].data.value[..])
      else
        var n := l.frameCount;
        && n >= 0
        && renderer.calls == old(renderer.calls) + [RenderCall(outputTimeMicros, n)]
        && forall k :: 0 <= k < |buffers| && buffers[k].data.Some? ==>
             buffers[k].data.value[..] == Routed(old(buffers[k].data.value[..]), k, l, r,
               Narrowed(LeftSamples(renderer.synth, outputTimeMicros, n), narrow),
               Narrowed(RightSamples(renderer.synth, outputTimeMicros, n), narrow))
  {
    status := NO_ERR;
    var left, right := BindOutputs(buffers, selected);
    if left.frameCount != right.frameCount {
      return;
    }
    if left.buffer.None? || right.buffer.None? {
      return;
    }

    var frameCount := left.frameCount;
    BoundOutputsRoutable(buffers, selected);
    var leftClient := new Double[frameCount](_ => ZERO_DOUBLE);
    var rightClient := new Double[frameCount](_ => ZERO_DOUBLE);
    renderer.RenderNext2Chn48kHz(outputTimeMicros, frameCount, leftClient, rightClient);
    CopyToHardware(buffers, left, right, frameCount, leftClient, rightClient, narrow);
  }

  /** Both outputs are bound to buffers with data, and every frame each of
      them writes lies inside its buffer. */
  predicate Routable(buffers: seq<AudioBuffer>, left: Output, right: Output, frameCount: nat)
  {
    && left.buffer.Some? && right.buffer.Some?
    && left.stride > 0 && right.stride > 0
    && left.buffer.value.bufferIndex < |buffers| && right.buffer.value.bufferIndex < |buffers|
    && buffers[left.buffer.value.bufferIndex].data.Some?
    && buffers[right.buffer.value.bufferIndex].data.Some?
    && (frameCount == 0 || Slot(left.buffer.value.offset, left.stride, frameCount - 1)
                             < buffers[left.buffer.value.bufferIndex].data.value.Length)
    && (frameCount == 0 || Slot(right.buffer.value.offset, right.stride, frameCount - 1)
                             < buffers[right.buffer.value.bufferIndex].data.value.Length)
  }

  /** A bound output of n frames can be copied to: its buffer has data and
      its last frame lies inside it. */
  lemma BoundOutputFits(buffers: seq<AudioBuffer>, selected: int)
    requires ValidBufferList(buffers) && Bind(buffers, selected).buffer.Some?
    ensures Bind(buffers, selected).frameCount >= 0
    ensures Bind(buffers, selected).buffer.value.bufferIndex < |buffers|
    ensures buffers[Bind(buffers, selected).buffer.value.bufferIndex].data.Some?
    ensures var o := Bind(buffers, selected);
      o.frameCount == 0 || Slot(o.buffer.value.offset, o.stride, o.frameCount - 1)
                             < buffers[o.buffer.value.bufferIndex].data.value.Length
  {
    var o := Bind(buffers, selected);
    var loc := o.buffer.value;
    BindCharacterization(buffers, selected, |buffers|, loc.bufferIndex, loc.offset);
    var b := buffers[loc.bufferIndex];
    assert o.stride == b.numberChannels && o.frameCount == FrameCount(b);
    assert b.data.value.Length == b.dataByteSize / 4;
    if o.frameCount > 0 {
      LastFrameFits(b, loc.offset);
    }
  }

  /** When the callback does not give up, both outputs can be copied to. */
  lemma BoundOutputsRoutable(buffers: seq<AudioBuffer>, selected: StereoChannelDesc)
    requires ValidBufferList(buffers)
    requires !Skipped(Bind(buffers, selected.left), Bind(buffers, selected.right))
    ensures Bind(buffers, selected.left).frameCount >= 0
    ensures Routable(buffers, Bind(buffers, selected.left), Bind(buffers, selected.right),
                     Bind(buffers, selected.left).frameCount)
  {
    BoundOutputFits(buffers, selected.left);
    BoundOutputFits(buffers, selected.right);
  }

  /** The callback's two copy loops: left samples, then right samples, each
      narrowed to float and stored with its output's stride. */
  method CopyToHardware(buffers: seq<AudioBuffer>, left: Output, right: Output, frameCount: nat,
                        leftClient: array<Double>, rightClient: array<Double>, narrow: Double -> Float)
    requires ValidBufferList(buffers) && Routable(buffers, left, right, frameCount)
    requires frameCount <= leftClient.Length && frameCount <= rightClient.Length
    modifies HardwareArrays(buffers)
    ensures forall k :: 0 <= k < |buffers| && buffers[k].data.Some? ==>
      buffers[k].data.value[..] == Routed(old(buffers[k].data.value[..]), k, left, right,
        Narrowed(leftClient[..frameCount], narrow), Narrowed(rightClient[..frameCount], narrow))
  {
    var leftLoc, rightLoc := left.buffer.value, right.buffer.value;
    var leftHw := buffers[leftLoc.bufferIndex].data.value;
    var rightHw := buffers[rightLoc.bufferIndex].data.value;
    assert leftHw in HardwareArrays(buffers);
    assert rightHw in HardwareArrays(buffers);
    ghost var lv := Narrowed(leftClient[..frameCount], narrow);
    ghost var rv := Narrowed(rightClient[..frameCount], narrow);
    ghost var before := map k | 0 <= k < |buffers| && buffers[k].data.Some? :: buffers[k].data.value[..];

    StridedWrite(leftHw, leftLoc.offset, left.stride, leftClient, frameCount, narrow);
    ghost var middle := map k | 0 <= k < |buffers| && buffers[k].data.Some? :: buffers[k].data.value[..];
    assert forall k :: k in before ==> middle[k] == Routed(before[k], k, left, UNBOUND, lv, rv) by {
      forall k | k in before ensures middle[k] == Routed(before[k], k, left, UNBOUND, lv, rv) {
        if k != leftLoc.bufferIndex {
          assert buffers[k].data.value != leftHw;
        }
      }
    }

    ghost var rightBefore := rightHw[..];
    assert rightBefore == middle[rightLoc.bufferIndex];
    StridedWrite(rightHw, rightLoc.offset, right.stride, rightClient, frameCount, narrow);
    assert rightHw[..] == WriteStrided(rightBefore, rightLoc.offset, right.stride, rv);
    forall k | 0 <= k < |buffers| && buffers[k].data.Some?
      ensures buffers[k].data.value[..] == Routed(old(buffers[k].data.value[..]), k, left, right, lv, rv)
    {
      assert k in before && k in middle;
      var a := buffers[k].data.value;
      assert before[k] == old(a[..]);
      assert middle[k] == Routed(before[k], k, left, UNBOUND, lv, rv);
      RoutedRightLast(before[k], k, left, right, lv, rv);
      if k != rightLoc.bufferIndex {
        assert a != rightHw;
        assert a[..] == middle[k];
      } else {
        assert a == rightHw;
        assert a[..] == WriteStrided(middle[k], rightLoc.offset, right.stride, rv);
      }
    }
  }

  /** A single interleaved stereo buffer of n frames with channels 1 and 2
      selected: the callback does not give up, renders n frames, and leaves
      the buffer holding exactly the interleaving of the two channels. */
  lemma InterleavedStereoBuffer(hw: array<Float>, n: nat, s: seq<Float>, lv: seq<Float>, rv: seq<Float>)
    requires 8 * n < TWO_32 && |s| == 2 * n && |lv| == n && |rv| == n
    ensures var buffers := [AudioBuffer(2, 8 * n, Some(hw))];
      var l, r := Bind(buffers, 1), Bind(buffers, 2);
      && !Skipped(l, r) && l.frameCount == n
      && Routed(s, 0, l, r, lv, rv) == Interleave(lv, rv)
  {
    var buffers := [AudioBuffer(2, 8 * n, Some(hw))];
    assert ChannelBase(buffers, 0) == 1;
    assert FrameCount(buffers[0]) == n;
    assert Bind(buffers, 1) == Output(Some(Location(0, 0)), 2, n);
    assert Bind(buffers, 2) == Output(Some(Location(0, 1)), 2, n);
    StereoStridesInterleave(s, lv, rv);
    assert s[2 * n..] == [];
  }

  /* =====================================================================
     Stream negotiation (open_stereo48khz_stream) and teardown
     ===================================================================== */

  /** kAudioFormatLinearPCM, the four characters 'lpcm' */
  const LINEAR_PCM: U32 := 0x6C70636D
  /** kAudioFormatFlagIsFloat | kAudioFormatFlagIsPacked, i.e. (1 << 0) | (1 << 3) */
  const FLOAT_PACKED: U32 := 9
  /** kAudioStreamAnyRate */
  const ANY_RATE: real := 0.0
  /** preferred_hz */
  const PREFERRED_HZ: real := 48000.0

  /** AudioStreamBasicDescription, the fields the negotiation reads. */
  datatype StreamFormat = StreamFormat(sampleRate: real, formatId: U32, formatFlags: U32, channelsPerFrame: U32)

  /** AudioStreamRangedDescription */
  datatype RangedDescription = RangedDescription(format: StreamFormat, rangeMinimum: real, rangeMaximum: real)

  /** What the HAL answers about one output stream: its starting channel
      (None when the query fails), its available virtual formats (None when
      either the size or the data query fails), and whether it accepts a
      virtual format being set. */
  datatype HalStream = HalStream(startingChannel: Option<U32>, formats: Option<seq<RangedDescription>>, acceptsFormat: bool)

  /** The HAL's answers for the default output device. */
  datatype HalDevice = HalDevice(
    defaultOutputDevice: Option<U32>,
    preferredStereo: Option<Pair>,
    streams: Option<seq<HalStream>>,
    ioProc: Option<U32>,
    startSucceeds: bool)

  /** `left_right_channels`: the target channels still to be resolved; a
      resolved target is set to 0. */
  datatype Pair = Pair(left: U32, right: U32)

  function Fabs(x: real): real { if x < 0.0 then -x else x }

  /** `!x` on a double, promoted back to double by the comparison it sits in. */
  function NotAsDouble(x: real): real { if x == 0.0 then 1.0 else 0.0 }

  /** The sample-rate test of one description: an any-rate description whose
      range holds 48000, or the expression `!fabs(preferred_hz - rate) < 0.01`
      as C parses it, which is `(!fabs(…)) < 0.01`. */
  predicate RateAcceptable(d: RangedDescription)
  {
    var isVariadic := d.format.sampleRate == ANY_RATE
                      && PREFERRED_HZ >= d.rangeMinimum && PREFERRED_HZ <= d.rangeMaximum;
    !(!isVariadic && NotAsDouble(Fabs(PREFERRED_HZ - d.format.sampleRate)) < 0.01)
  }

  /** A description the negotiation takes: linear PCM, an acceptable rate,
      and flags exactly float | packed. */
  predicate Acceptable(d: RangedDescription)
  {
    d.format.formatId == LINEAR_PCM && RateAcceptable(d) && d.format.formatFlags == FLOAT_PACKED
  }

  /** The fixed-rate test accepts 48000 Hz exactly and no other rate: the
      0.01 Hz tolerance the expression appears to express is not applied. */
  lemma RateAcceptableIff(d: RangedDescription)
    ensures RateAcceptable(d) <==>
      (d.format.sampleRate == ANY_RATE && d.rangeMinimum <= PREFERRED_HZ <= d.rangeMaximum)
      || d.format.sampleRate == PREFERRED_HZ
  {
  }

  /** A fixed rate of 48000.005 Hz, within 0.01 Hz of the target, is refused. */
  lemma NearRateRefused()
    ensures !RateAcceptable(RangedDescription(StreamFormat(48000.005, LINEAR_PCM, FLOAT_PACKED, 2), 0.0, 0.0))
  {
  }

  /** The index of the first acceptable description, if any. */
  function FirstAcceptable(descs: seq<RangedDescription>): (r: Option<nat>)
    ensures r.Some? ==> r.value < |descs| && Acceptable(descs[r.value])
    ensures r.Some? ==> forall d :: 0 <= d < r.value ==> !Acceptable(descs[d])
    ensures r.None? ==> forall d :: 0 <= d < |descs| ==> !Acceptable(descs[d])
  {
    if descs == [] then None
    else if Acceptable(descs[0]) then Some(0)
    else match FirstAcceptable(descs[1..])
      case None => None
      case Some(i) => Some(i + 1)
  }

  /** A format set on a stream, by the stream's position in the device's list. */
  datatype AppliedFormat = AppliedFormat(streamIndex: nat, format: StreamFormat)

  /** The negotiation's variables while it walks the streams: the targets
      still pending, the channel description handed to the IOProc, and the
      formats set so far. */
  datatype ScanState = ScanState(targets: Pair, channels: StereoChannelDesc, applied: seq<AppliedFormat>)

  datatype NegotiationError =
    | NoOutputDevice
    | StereoChannelsUnavailable
    | StreamsUnavailable
    | FormatsUnavailable
    | FormatRejected
    | ChannelUnresolved

  datatype ScanResult =
    | Scanned(state: ScanState)
    | ScanAborted(error: NegotiationError, applied: seq<AppliedFormat>)

  /** Marks the channels a chosen format covers: a mono format resolves the
      slot whose target is the starting channel, left first; a wider format
      takes both targets as they stand. */
  function Resolve(st: ScanState, start: U32, channelsPerFrame: U32): ScanState
  {
    if channelsPerFrame < 2 then
      if st.targets.left == start then
        st.(channels := st.channels.(left := start), targets := st.targets.(left := 0))
      else if st.targets.right == start then
        st.(channels := st.channels.(right := start), targets := st.targets.(right := 0))
      else st
    else
      st.(channels := StereoChannelDesc(st.targets.left, st.targets.right), targets := Pair(0, 0))
  }

  /** One pass of the stream loop, for stream number k. */
  function ExamineStream(st: ScanState, s: HalStream, k: nat): ScanResult
  {
    if s.startingChannel.None?
       || (s.startingChannel.value != st.targets.left && s.startingChannel.value != st.targets.right)
    then Scanned(st)
    else if s.formats.None? then ScanAborted(FormatsUnavailable, st.applied)
    else match FirstAcceptable(s.formats.value)
      case None => Scanned(st)
      case Some(i) =>
        var chosen := s.formats.value[i].format.(sampleRate := PREFERRED_HZ);
        if !s.acceptsFormat then ScanAborted(FormatRejected, st.applied)
        else Scanned(Resolve(st.(applied := st.applied + [AppliedFormat(k, chosen)]),
                             s.startingChannel.value, chosen.channelsPerFrame))
  }

  /** The state before any stream is examined: `new StereoChannelDesc()`
      zero-initialises the channels. */
  function InitialScan(preferred: Pair): ScanState
  {
    ScanState(preferred, StereoChannelDesc(0, 0), [])
  }

  /** The negotiation after the first k streams. */
  function ScanUpTo(streams: seq<HalStream>, preferred: Pair, k: nat): ScanResult
    requires k <= |streams|
  {
    if k == 0 then Scanned(InitialScan(preferred))
    else match ScanUpTo(streams, preferred, k - 1)
      case ScanAborted(e, a) => ScanAborted(e, a)
      case Scanned(st) => ExamineStream(st, streams[k - 1], k - 1)
  }

  function Scan(streams: seq<HalStream>, preferred: Pair): ScanResult
  {
    ScanUpTo(streams, preferred, |streams|)
  }

  /** Once the negotiation has aborted, later streams change nothing. */
  lemma {:induction false} AbortIsFinal(streams: seq<HalStream>, preferred: Pair, k: nat, k': nat)
    requires k <= k' <= |streams| && ScanUpTo(streams, preferred, k).ScanAborted?
    ensures ScanUpTo(streams, preferred, k') == ScanUpTo(streams, preferred, k)
  {
    if k < k' {
      AbortIsFinal(streams, preferred, k, k' - 1);
    }
  }

  /** The nested stream / description loops of open_stereo48khz_stream. */
  method ScanStreams(streams: seq<HalStream>, preferred: Pair) returns (r: ScanResult)
    ensures r == Scan(streams, preferred)
  {
    var leftRightChannels := preferred;
    var channels := StereoChannelDesc(0, 0);
    var applied: seq<AppliedFormat> := [];
    var streamsI := 0;
    while streamsI < |streams|
      invariant 0 <= streamsI <= |streams|
      invariant ScanUpTo(streams, preferred, streamsI) == Scanned(ScanState(leftRightChannels, channels, applied))
    {
      var candidate := streams[streamsI];
      if candidate.startingChannel.None?
         || (candidate.startingChannel.value != leftRightChannels.left
             && candidate.startingChannel.value != leftRightChannels.right) {
        streamsI := streamsI + 1;
        continue;
      }
      var startingChannel := candidate.startingChannel.value;
      if candidate.formats.None? {
        AbortIsFinal(streams, preferred, streamsI + 1, |streams|);
        return ScanAborted(FormatsUnavailable, applied);
      }
      var descriptions := candidate.formats.value;
      var i := 0;
      while i < |descriptions|
        invariant 0 <= i <= |descriptions|
        invariant forall d :: 0 <= d < i ==> !Acceptable(descriptions[d])
      {
        var desc := descriptions[i];
        if desc.format.formatId != LINEAR_PCM {
          i := i + 1;
          continue;
        }
        var isVariadic := desc.format.sampleRate == ANY_RATE
                          && PREFERRED_HZ >= desc.rangeMinimum && PREFERRED_HZ <= desc.rangeMaximum;
        if !isVariadic && NotAsDouble(Fabs(PREFERRED_HZ - desc.format.sampleRate)) < 0.01 {
          i := i + 1;
          continue;
        }
        if desc.format.formatFlags != FLOAT_PACKED {
          i := i + 1;
          continue;
        }
        var format := desc.format.(sampleRate := PREFERRED_HZ);
        if !candidate.acceptsFormat {
          assert FirstAcceptable(descriptions) == Some(i);
          AbortIsFinal(streams, preferred, streamsI + 1, |streams|);
          return ScanAborted(FormatRejected, applied);
        }
        applied := applied + [AppliedFormat(streamsI, format)];
        if format.channelsPerFrame < 2 {
          if leftRightChannels.left == startingChannel {
            channels := channels.(left := startingChannel);
            leftRightChannels := leftRightChannels.(left := 0);
          } else if leftRightChannels.right == startingChannel {
            channels := channels.(right := startingChannel);
            leftRightChannels := leftRightChannels.(right := 0);
          }
        } else {
          channels := StereoChannelDesc(leftRightChannels.left, leftRightChannels.right);
          leftRightChannels := Pair(0, 0);
        }
        break;
      }
      streamsI := streamsI + 1;
    }
    r := Scanned(ScanState(leftRightChannels, channels, applied));
  }

  /** Every format the negotiation set is the chosen linear-PCM float
      format re-labelled 48000 Hz, set on one of the first k streams, at most
      one per stream and in stream order. */
  predicate AppliedWellFormed(applied: seq<AppliedFormat>, k: nat)
  {
    && (forall a :: 0 <= a < |applied| ==>
          && applied[a].streamIndex < k
          && applied[a].format.sampleRate == PREFERRED_HZ
          && applied[a].format.formatId == LINEAR_PCM
          && applied[a].format.formatFlags == FLOAT_PACKED)
    && (forall a, a' :: 0 <= a < a' < |applied| ==> applied[a].streamIndex < applied[a'].streamIndex)
  }

  /** What holds of the negotiation's variables after any number of
      streams: a pending target is still the preferred channel, a resolved
      target is 0, a role's channel is the preferred one or 0, and a role
      whose target is pending has channel 0. */
  predicate ScanInvariant(st: ScanState, preferred: Pair, k: nat)
  {
    && (st.targets.left == 0 || st.targets.left == preferred.left)
    && (st.targets.right == 0 || st.targets.right == preferred.right)
    && (st.channels.left == 0 || st.channels.left == preferred.left)
    && (st.channels.right == 0 || st.channels.right == preferred.right)
    && (st.targets.left != 0 ==> st.channels.left == 0)
    && (st.targets.right != 0 ==> st.channels.right == 0)
    && AppliedWellFormed(st.applied, k)
  }

  lemma AppliedWellFormedLater(applied: seq<AppliedFormat>, k: nat, k': nat)
    requires k <= k' && AppliedWellFormed(applied, k)
    ensures AppliedWellFormed(applied, k')
  {
  }

  /** Examining stream k keeps the invariant, and an abort reports formats
      that satisfy it. */
  lemma ExamineStreamKeepsInvariant(st: ScanState, s: HalStream, k: nat, preferred: Pair)
    requires ScanInvariant(st, preferred, k)
    ensures ExamineStream(st, s, k).Scanned? ==> ScanInvariant(ExamineStream(st, s, k).state, preferred, k + 1)
    ensures ExamineStream(st, s, k).ScanAborted? ==> AppliedWellFormed(ExamineStream(st, s, k).applied, k + 1)
  {
    if s.startingChannel.Some? && s.formats.Some? {
      match FirstAcceptable(s.formats.value)
      case None =>
      case Some(i) =>
        var chosen := s.formats.value[i].format.(sampleRate := PREFERRED_HZ);
        var applied' := st.applied + [AppliedFormat(k, chosen)];
        assert applied'[|st.applied|] == AppliedFormat(k, chosen);
        assert AppliedWellFormed(applied', k + 1);
    }
  }

  /** The invariant holds after every prefix of the stream list. */
  lemma {:induction false} ScanInvariantHolds(streams: seq<HalStream>, preferred: Pair, k: nat)
    requires k <= |streams|
    ensures ScanUpTo(streams, preferred, k).Scanned? ==>
      ScanInvariant(ScanUpTo(streams, preferred, k).state, preferred, k)
    ensures ScanUpTo(streams, preferred, k).ScanAborted? ==>
      AppliedWellFormed(ScanUpTo(streams, preferred, k).applied, k)
  {
    if k > 0 {
      ScanInvariantHolds(streams, preferred, k - 1);
      var prev := ScanUpTo(streams, preferred, k - 1);
      if prev.ScanAborted? {
        assert ScanUpTo(streams, preferred, k) == prev;
        AppliedWellFormedLater(prev.applied, k - 1, k);
      } else {
        assert ScanUpTo(streams, preferred, k) == ExamineStream(prev.state, streams[k - 1], k - 1);
        ExamineStreamKeepsInvariant(prev.state, streams[k - 1], k - 1, preferred);
      }
    }
  }

  /** Once both targets are resolved, a later stream is skipped unless its
      starting channel is 0: the state no longer changes. */
  lemma {:induction false} ResolvedStateIsStable(streams: seq<HalStream>, preferred: Pair, k: nat, k': nat, st: ScanState)
    requires k <= k' <= |streams|
    requires ScanUpTo(streams, preferred, k) == Scanned(st) && st.targets == Pair(0, 0)
    requires forall j :: k <= j < k' ==> streams[j].startingChannel != Some(0)
    ensures ScanUpTo(streams, preferred, k') == Scanned(st)
  {
    if k < k' {
      ResolvedStateIsStable(streams, preferred, k, k' - 1, st);
    }
  }

  /** The outcome of open_stereo48khz_stream's queries and negotiation,
      before the IOProc is created. */
  datatype Negotiation =
    | Refused(error: NegotiationError, applied: seq<AppliedFormat>)
    | Resolved(device: U32, channels: StereoChannelDesc, applied: seq<AppliedFormat>)

  /** The default device must exist and be nonzero, its preferred stereo
      pair and stream list must be readable, no stream may abort the scan,
      and both targets must end resolved. */
  function Negotiate(hal: HalDevice): Negotiation
  {
    if hal.defaultOutputDevice.None? || hal.defaultOutputDevice.value == 0 then Refused(NoOutputDevice, [])
    else if hal.preferredStereo.None? then Refused(StereoChannelsUnavailable, [])
    else if hal.streams.None? then Refused(StreamsUnavailable, [])
    else match Scan(hal.streams.value, hal.preferredStereo.value)
      case ScanAborted(e, a) => Refused(e, a)
      case Scanned(st) =>
        if st.targets != Pair(0, 0) then Refused(ChannelUnresolved, st.applied)
        else Resolved(hal.defaultOutputDevice.value, st.channels, st.applied)
  }

  /** A resolved negotiation names a real device, binds each role to its
      preferred channel or to 0, and set only 48 kHz float formats, at most
      one per stream. A refused one set only such formats too. */
  lemma NegotiationSound(hal: HalDevice)
    ensures var n := Negotiate(hal);
      && (n.Resolved? ==>
            && n.device != 0
            && hal.preferredStereo.Some? && hal.streams.Some?
            && (n.channels.left == 0 || n.channels.left == hal.preferredStereo.value.left)
            && (n.channels.right == 0 || n.channels.right == hal.preferredStereo.value.right)
            && AppliedWellFormed(n.applied, |hal.streams.value|))
      && (n.Refused? && hal.streams.Some? ==> AppliedWellFormed(n.applied, |hal.streams.value|))
  {
    if hal.streams.Some? && hal.preferredStereo.Some? {
      ScanInvariantHolds(hal.streams.value, hal.preferredStereo.value, |hal.streams.value|);
    }
  }

  /** A linear-PCM float format of the given width at 48000 Hz. */
  function PcmFloat(channels: U32): RangedDescription
  {
    RangedDescription(StreamFormat(PREFERRED_HZ, LINEAR_PCM, FLOAT_PACKED, channels), 0.0, 0.0)
  }

  function Device(streams: seq<HalStream>): HalDevice
  {
    HalDevice(Some(7), Some(Pair(1, 2)), Some(streams), Some(3), true)
  }

  /** One stereo stream starting at the left channel resolves both roles. */
  lemma StereoStreamResolves()
    ensures Negotiate(Device([HalStream(Some(1), Some([PcmFloat(2)]), true)]))
      == Resolved(7, StereoChannelDesc(1, 2), [AppliedFormat(0, PcmFloat(2).format)])
  {
    var streams := [HalStream(Some(1), Some([PcmFloat(2)]), true)];
    assert FirstAcceptable([PcmFloat(2)]) == Some(0);
    assert ScanUpTo(streams, Pair(1, 2), 1) ==
      Scanned(ScanState(Pair(0, 0), StereoChannelDesc(1, 2), [AppliedFormat(0, PcmFloat(2).format)]));
  }

  /** A stream whose only description has an unacceptable rate is passed
      over and the next stream resolves both roles; a third stream would be
      examined too, but cannot change the result unless it starts at
      channel 0 (ResolvedStateIsStable). */
  lemma UnsupportedStreamPassedOver()
    ensures var s1 := HalStream(Some(1), Some([RangedDescription(StreamFormat(44100.0, LINEAR_PCM, FLOAT_PACKED, 2), 0.0, 0.0)]), true);
      var s2 := HalStream(Some(1), Some([PcmFloat(2)]), true);
      Negotiate(Device([s1, s2])) == Resolved(7, StereoChannelDesc(1, 2), [AppliedFormat(1, PcmFloat(2).format)])
  {
    var d := RangedDescription(StreamFormat(44100.0, LINEAR_PCM, FLOAT_PACKED, 2), 0.0, 0.0);
    var streams := [HalStream(Some(1), Some([d]), true), HalStream(Some(1), Some([PcmFloat(2)]), true)];
    assert !Acceptable(d);
    assert FirstAcceptable([d]) == None;
    assert FirstAcceptable([PcmFloat(2)]) == Some(0);
    assert ScanUpTo(streams, Pair(1, 2), 1) == Scanned(InitialScan(Pair(1, 2)));
    assert ScanUpTo(streams, Pair(1, 2), 2) ==
      Scanned(ScanState(Pair(0, 0), StereoChannelDesc(1, 2), [AppliedFormat(1, PcmFloat(2).format)]));
  }

  /** Two mono streams, one per preferred channel, resolve both roles. */
  lemma MonoStreamsResolve()
    ensures Negotiate(Device([HalStream(Some(1), Some([PcmFloat(1)]), true),
                              HalStream(Some(2), Some([PcmFloat(1)]), true)])).Resolved?
    ensures Negotiate(Device([HalStream(Some(1), Some([PcmFloat(1)]), true),
                              HalStream(Some(2), Some([PcmFloat(1)]), true)])).channels
      == StereoChannelDesc(1, 2)
  {
    var streams := [HalStream(Some(1), Some([PcmFloat(1)]), true), HalStream(Some(2), Some([PcmFloat(1)]), true)];
    assert FirstAcceptable([PcmFloat(1)]) == Some(0);
    var a := [AppliedFormat(0, PcmFloat(1).format)];
    assert ScanUpTo(streams, Pair(1, 2), 1) == Scanned(ScanState(Pair(0, 2), StereoChannelDesc(1, 0), a));
    assert ScanUpTo(streams, Pair(1, 2), 2) ==
      Scanned(ScanState(Pair(0, 0), StereoChannelDesc(1, 2), a + [AppliedFormat(1, PcmFloat(1).format)]));
  }

  /** A lone mono stream for the left channel leaves the right target
      pending: the open gives up after setting that stream's format. */
  lemma LeftOnlyIsUnresolved()
    ensures Negotiate(Device([HalStream(Some(1), Some([PcmFloat(1)]), true)]))
      == Refused(ChannelUnresolved, [AppliedFormat(0, PcmFloat(1).format)])
  {
    var streams := [HalStream(Some(1), Some([PcmFloat(1)]), true)];
    assert FirstAcceptable([PcmFloat(1)]) == Some(0);
    assert ScanUpTo(streams, Pair(1, 2), 1) ==
      Scanned(ScanState(Pair(0, 2), StereoChannelDesc(1, 0), [AppliedFormat(0, PcmFloat(1).format)]));
  }

  /** A stereo stream at the right channel, after the left one was resolved
      by a mono stream, copies the already-cleared left target: the left
      role ends bound to channel 0 and the open still succeeds. */
  lemma StereoAfterMonoClearsLeft()
    ensures Negotiate(Device([HalStream(Some(1), Some([PcmFloat(1)]), true),
                              HalStream(Some(2), Some([PcmFloat(2)]), true)])).Resolved?
    ensures Negotiate(Device([HalStream(Some(1), Some([PcmFloat(1)]), true),
                              HalStream(Some(2), Some([PcmFloat(2)]), true)])).channels
      == StereoChannelDesc(0, 2)
  {
    var streams := [HalStream(Some(1), Some([PcmFloat(1)]), true), HalStream(Some(2), Some([PcmFloat(2)]), true)];
    assert FirstAcceptable([PcmFloat(1)]) == Some(0);
    assert FirstAcceptable([PcmFloat(2)]) == Some(0);
    var a := [AppliedFormat(0, PcmFloat(1).format)];
    assert ScanUpTo(streams, Pair(1, 2), 1) == Scanned(ScanState(Pair(0, 2), StereoChannelDesc(1, 0), a));
    assert ScanUpTo(streams, Pair(1, 2), 2) ==
      Scanned(ScanState(Pair(0, 0), StereoChannelDesc(0, 2), a + [AppliedFormat(1, PcmFloat(2).format)]));
  }

  /** A resolved target reads 0, so a later mono stream starting at channel
      0 matches it and overwrites the left role with channel 0. */
  lemma ZeroStartingChannelClearsLeft()
    ensures Negotiate(Device([HalStream(Some(1), Some([PcmFloat(2)]), true),
                              HalStream(Some(0), Some([PcmFloat(1)]), true)])).Resolved?
    ensures Negotiate(Device([HalStream(Some(1), Some([PcmFloat(2)]), true),
                              HalStream(Some(0), Some([PcmFloat(1)]), true)])).channels
      == StereoChannelDesc(0, 2)
  {
    var streams := [HalStream(Some(1), Some([PcmFloat(2)]), true), HalStream(Some(0), Some([PcmFloat(1)]), true)];
    assert FirstAcceptable([PcmFloat(1)]) == Some(0);
    assert FirstAcceptable([PcmFloat(2)]) == Some(0);
    var a := [AppliedFormat(0, PcmFloat(2).format)];
    assert ScanUpTo(streams, Pair(1, 2), 1) == Scanned(ScanState(Pair(0, 0), StereoChannelDesc(1, 2), a));
    assert ScanUpTo(streams, Pair(1, 2), 2) ==
      Scanned(ScanState(Pair(0, 0), StereoChannelDesc(0, 2), a + [AppliedFormat(1, PcmFloat(1).format)]));
  }

  /** A change the back-end made to the audio hardware. */
  datatype HalRequest =
    | SetVirtualFormat(streamIndex: nat, format: StreamFormat)
    | CreateIOProc(device: U32, channels: StereoChannelDesc)
    | StartDevice(device: U32, ioProc: U32)
    | StopDevice(device: U32)
    | DestroyIOProc(device: U32, ioProc: U32)

  function FormatRequests(applied: seq<AppliedFormat>): (r: seq<HalRequest>)
    ensures |r| == |applied|
    ensures forall a :: 0 <= a < |applied| ==> r[a] == SetVirtualFormat(applied[a].streamIndex, applied[a].format)
  {
    seq(|applied|, a requires 0 <= a < |applied| => SetVirtualFormat(applied[a].streamIndex, applied[a].format))
  }

  /** The back-end's static state (`mainDeviceID`, `mainIOProcID`), the
      changes made to the hardware so far, and the number of times
      close_stream was registered to run at exit. */
  class CoreAudioOutput {
    var mainDeviceID: U32
    var mainIOProcID: U32
    var requests: seq<HalRequest>
    var exitHooks: nat

    constructor()
      ensures mainDeviceID == 0 && mainIOProcID == 0 && requests == [] && exitHooks == 0
    {
      mainDeviceID, mainIOProcID := 0, 0;
      requests, exitHooks := [], 0;
    }

    /** open_stereo48khz_stream: every format the negotiation chose is set;
        then, if it resolved both channels, an IOProc is created for the
        channel description, the static IDs are recorded, the device is
        started, and only when it started is close_stream registered. */
    method OpenStereo48kHzStream(hal: HalDevice)
      modifies this
      ensures var n := Negotiate(hal);
        if n.Refused? || hal.ioProc.None? then
          && mainDeviceID == old(mainDeviceID) && mainIOProcID == old(mainIOProcID)
          && exitHooks == old(exitHooks)
          && requests == old(requests) + FormatRequests(n.applied)
        else
          && mainDeviceID == n.device && mainIOProcID == hal.ioProc.value
          && requests == old(requests) + FormatRequests(n.applied) + [CreateIOProc(n.device, n.channels)]
               + (if hal.startSucceeds then [StartDevice(n.device, hal.ioProc.value)] else [])
          && exitHooks == old(exitHooks) + (if hal.startSucceeds then 1 else 0)
    {
      if hal.defaultOutputDevice.None? || hal.defaultOutputDevice.value == 0 {
        return;
      }
      var outputDevice := hal.defaultOutputDevice.value;
      if hal.preferredStereo.None? {
        return;
      }
      if hal.streams.None? {
        return;
      }
      var scan := ScanStreams(hal.streams.value, hal.preferredStereo.value);
      var applied := if scan.Scanned? then scan.state.applied else scan.applied;
      requests := requests + FormatRequests(applied);
      if scan.ScanAborted? {
        return;
      }
      if scan.state.targets.left != 0 || scan.state.targets.right != 0 {
        return;
      }
      if hal.ioProc.None? {
        return;
      }
      var procID := hal.ioProc.value;
      requests := requests + [CreateIOProc(outputDevice, scan.state.channels)];
      mainDeviceID := outputDevice;
      mainIOProcID := procID;
      if !hal.startSucceeds {
        return;
      }
      requests := requests + [StartDevice(outputDevice, procID)];
      exitHooks := exitHooks + 1;
    }

    /** close_stream: with both IDs set, stops the device, destroys the
        IOProc only if the stop succeeded, and clears both IDs whatever the
        outcome; otherwise does nothing. Afterwards a second call does
        nothing. */
    method CloseStream(stopSucceeds: bool, destroySucceeds: bool)
      modifies this
      ensures exitHooks == old(exitHooks)
      ensures mainDeviceID == 0 || mainIOProcID == 0
      ensures if old(mainDeviceID) != 0 && old(mainIOProcID) != 0 then
          && mainDeviceID == 0 && mainIOProcID == 0
          && requests == old(requests)
               + (if stopSucceeds then [StopDevice(old(mainDeviceID))] else [])
               + (if stopSucceeds && destroySucceeds then [DestroyIOProc(old(mainDeviceID), old(mainIOProcID))] else [])
        else
          mainDeviceID == old(mainDeviceID) && mainIOProcID == old(mainIOProcID) && requests == old(requests)
    {
      if mainDeviceID != 0 && mainIOProcID != 0 {
        if stopSucceeds {
          requests := requests + [StopDevice(mainDeviceID)];
          if destroySucceeds {
            requests := requests + [DestroyIOProc(mainDeviceID, mainIOProcID)];
          }
        }
        mainDeviceID := 0;
        mainIOProcID := 0;
      }
    }
  }
}
