/** The WASAPI back-end: the shared-mode stream setup (requested format,
    stream flags, rate adjustment) and one iteration of the event-driven
    render thread (frames to fill, playback timestamp, stride-2 output,
    rendered-frame counter). */
module WasapiAudio {
  import opened Audio
  import opened Arith

  const AUDIO_HZ: int := 48000

  /* =====================================================================
     Stream setup (open_stereo48khz_stream)
     ===================================================================== */

  /** WAVE_FORMAT_EXTENSIBLE */
  const WAVE_FORMAT_EXTENSIBLE: int := 0xFFFE
  /** SPEAKER_ALL */
  const SPEAKER_ALL: U32 := 0x8000_0000
  /** KSDATAFORMAT_SUBTYPE_IEEE_FLOAT, {00000003-0000-0010-8000-00aa00389b71} as one number */
  const SUBTYPE_IEEE_FLOAT: int := 0x0000_0003_0000_0010_8000_00aa_0038_9b71
  /** sizeof(WAVEFORMATEXTENSIBLE) - sizeof(WAVEFORMATEX) = 40 - 18 */
  const EXTENSIBLE_EXTRA_BYTES: int := 22
  /** sizeof(float) */
  const FLOAT_BYTES: int := 4

  /** AUDCLNT_STREAMFLAGS_EVENTCALLBACK */
  const EVENTCALLBACK: bv32 := 0x0004_0000
  /** AUDCLNT_STREAMFLAGS_RATEADJUST */
  const RATEADJUST: bv32 := 0x0010_0000

  /** WAVEFORMATEXTENSIBLE: the WAVEFORMATEX header, then the valid bits per
      sample, the channel mask and the sub-format identifier. */
  datatype WaveFormat = WaveFormat(
    formatTag: int,
    channels: int,
    samplesPerSec: U32,
    avgBytesPerSec: int,
    blockAlign: int,
    bitsPerSample: int,
    cbSize: int,
    validBitsPerSample: int,
    channelMask: U32,
    subFormat: int)

  /** The format the back-end asks for: interleaved stereo 32-bit float at
      48 kHz, in the extensible layout. */
  const REQUESTED_FORMAT: WaveFormat := WaveFormat(
    WAVE_FORMAT_EXTENSIBLE,
    2,
    48000,
    AUDIO_HZ * FLOAT_BYTES * 2,
    FLOAT_BYTES * 2,
    FLOAT_BYTES * 8,
    EXTENSIBLE_EXTRA_BYTES,
    FLOAT_BYTES * 8,
    SPEAKER_ALL,
    SUBTYPE_IEEE_FLOAT)

  /** The requested format is self-consistent in the way a PCM wave format
      must be: a frame is one sample per channel, and the byte rate is the
      frame size times the frame rate. */
  lemma RequestedFormatConsistent()
    ensures REQUESTED_FORMAT.channels == 2 && REQUESTED_FORMAT.samplesPerSec == 48000
    ensures REQUESTED_FORMAT.blockAlign == REQUESTED_FORMAT.channels * REQUESTED_FORMAT.bitsPerSample / 8 == 8
    ensures REQUESTED_FORMAT.avgBytesPerSec == REQUESTED_FORMAT.samplesPerSec * REQUESTED_FORMAT.blockAlign == 384000
    ensures REQUESTED_FORMAT.validBitsPerSample == REQUESTED_FORMAT.bitsPerSample == 32
  {
  }

  /** What IsFormatSupported answers in shared mode: S_OK, S_FALSE with the
      closest format the engine offers, AUDCLNT_E_UNSUPPORTED_FORMAT, or any
      other failure. */
  datatype FormatSupport =
    | FormatSupported
    | ClosestMatch(closest: WaveFormat)
    | FormatUnsupported
    | FormatQueryFailed

  /** The answers of the COM and audio-client calls the setup makes, in
      order. */
  datatype WasapiHost = WasapiHost(
    comInitialised: bool,
    enumeratorCreated: bool,
    defaultDeviceFound: bool,
    clientActivated: bool,
    support: FormatSupport,
    initialised: bool,
    clockAdjustmentFound: bool,
    sampleRateSet: bool,
    eventHandleSet: bool)

  /** The step at which the setup gave up. */
  datatype SetupStep =
    | ComInitialisation
    | DeviceEnumerator
    | DefaultDevice
    | ClientActivation
    | FormatQuery
    | FormatTypeMismatch
    | ClientInitialisation
    | ClockAdjustmentService
    | SampleRateAdjustment
    | EventHandle

  datatype SetupResult =
    | SetupAborted(step: SetupStep)
    | StreamStarted(format: WaveFormat, flags: bv32, rateAdjusted: bool)

  /** Every host answer up to and including the client activation succeeded. */
  predicate ClientReady(host: WasapiHost)
  {
    host.comInitialised && host.enumeratorCreated && host.defaultDeviceFound && host.clientActivated
  }

  /** The format the client is initialised with: the engine's closest
      format when it offered one, otherwise the requested one. */
  function NegotiatedFormat(host: WasapiHost): WaveFormat
  {
    if host.support.ClosestMatch? then host.support.closest else REQUESTED_FORMAT
  }

  /** The setup of open_stereo48khz_stream: asks for REQUESTED_FORMAT, takes
      the engine's closest format when it offers one of the same extensible
      layout, initialises the client with event callbacks, adds the rate
      adjustment flag (and sets the rate back to 48 kHz) exactly when the
      format's rate is not 48 kHz, and registers the refill event. The
      render thread is started only on success. */
  method OpenStereo48kHzStream(host: WasapiHost) returns (r: SetupResult)
    ensures !host.comInitialised ==> r == SetupAborted(ComInitialisation)
    ensures host.comInitialised && !host.enumeratorCreated ==> r == SetupAborted(DeviceEnumerator)
    ensures host.comInitialised && host.enumeratorCreated && !host.defaultDeviceFound ==>
      r == SetupAborted(DefaultDevice)
    ensures host.comInitialised && host.enumeratorCreated && host.defaultDeviceFound && !host.clientActivated ==>
      r == SetupAborted(ClientActivation)
    ensures ClientReady(host) && (host.support.FormatUnsupported? || host.support.FormatQueryFailed?) ==>
      r == SetupAborted(FormatQuery)
    ensures (ClientReady(host) && host.support.ClosestMatch?
             && host.support.closest.cbSize != EXTENSIBLE_EXTRA_BYTES) ==> r == SetupAborted(FormatTypeMismatch)
    ensures (&& ClientReady(host)
             && (host.support.FormatSupported?
                 || (host.support.ClosestMatch? && host.support.closest.cbSize == EXTENSIBLE_EXTRA_BYTES))) ==>
      var rateOff := NegotiatedFormat(host).samplesPerSec != 48000;
      && (!host.initialised ==> r == SetupAborted(ClientInitialisation))
      && (host.initialised && rateOff && !host.clockAdjustmentFound ==> r == SetupAborted(ClockAdjustmentService))
      && (host.initialised && rateOff && host.clockAdjustmentFound && !host.sampleRateSet ==>
            r == SetupAborted(SampleRateAdjustment))
      && (host.initialised && (rateOff ==> host.clockAdjustmentFound && host.sampleRateSet) && !host.eventHandleSet ==>
            r == SetupAborted(EventHandle))
    ensures r.StreamStarted? <==>
      && ClientReady(host)
      && (host.support.FormatSupported?
          || (host.support.ClosestMatch? && host.support.closest.cbSize == EXTENSIBLE_EXTRA_BYTES))
      && host.initialised
      && (NegotiatedFormat(host).samplesPerSec != 48000 ==> host.clockAdjustmentFound && host.sampleRateSet)
      && host.eventHandleSet
    ensures r.StreamStarted? ==>
      && r.format == NegotiatedFormat(host)
      && r.flags & EVENTCALLBACK == EVENTCALLBACK
      && (r.flags & RATEADJUST == RATEADJUST <==> r.format.samplesPerSec != 48000)
      && r.flags & !(EVENTCALLBACK | RATEADJUST) == 0
      && (r.rateAdjusted <==> r.format.samplesPerSec != 48000)
  {
    if !host.comInitialised { return SetupAborted(ComInitialisation); }
    if !host.enumeratorCreated { return SetupAborted(DeviceEnumerator); }
    if !host.defaultDeviceFound { return SetupAborted(DefaultDevice); }
    if !host.clientActivated { return SetupAborted(ClientActivation); }

    var formatex := REQUESTED_FORMAT;
    // AUDCLNT_E_UNSUPPORTED_FORMAT is itself a failure code, so the first
    // check already rejects it.
    if host.support.FormatUnsupported? || host.support.FormatQueryFailed? {
      return SetupAborted(FormatQuery);
    }
    if host.support.ClosestMatch? {
      if formatex.cbSize != host.support.closest.cbSize {
        return SetupAborted(FormatTypeMismatch);
      }
      formatex := host.support.closest;
    }

    var streamFlags := EVENTCALLBACK;
    if formatex.samplesPerSec != AUDIO_HZ {
      streamFlags := streamFlags | RATEADJUST;
    }

    if !host.initialised { return SetupAborted(ClientInitialisation); }

    var rateAdjusted := false;
    if RATEADJUST & streamFlags != 0 {
      if !host.clockAdjustmentFound { return SetupAborted(ClockAdjustmentService); }
      if !host.sampleRateSet { return SetupAborted(SampleRateAdjustment); }
      rateAdjusted := true;
    }

    if !host.eventHandleSet { return SetupAborted(EventHandle); }
    r := StreamStarted(formatex, streamFlags, rateAdjusted);
  }

  /* =====================================================================
     Timing
     ===================================================================== */

  /** The device clock's answers: either GetFrequency or GetPosition failed,
      or both succeeded. */
  datatype ClockQuery = ClockUnavailable | ClockReading(frequency: U64, position: U64)

  /** get_speaker_micros: the device position in microseconds,
      `(uint64_t) 1e6 * pos / freq` with the product wrapping at 2^64, or
      the fallback when the clock cannot be read. The device clock's
      frequency is never 0. */
  function SpeakerMicros(clock: ClockQuery, defaultMicros: U64): (r: U64)
    requires clock.ClockReading? ==> clock.frequency > 0
    ensures clock.ClockUnavailable? ==> r == defaultMicros
    ensures clock.ClockReading? ==>
      r * clock.frequency <= (1000000 * clock.position) % TWO_64 < r * clock.frequency + clock.frequency
    ensures clock.ClockReading? && 1000000 * clock.position < TWO_64 ==>
      r * clock.frequency <= 1000000 * clock.position < r * clock.frequency + clock.frequency
  {
    match clock
    case ClockUnavailable => defaultMicros
    case ClockReading(freq, pos) =>
      var scaled := Wrap64(1000000 * pos);
      QuotientBounds(scaled, freq);
      assert 1000000 * pos < TWO_64 ==> scaled == 1000000 * pos;
      scaled / freq
  }

  /** `frame_micros`: the play time of the frames rendered so far. The
      counter is a uint32, so the 64-bit product never wraps, and the result
      is count · 125 / 6 rounded down. */
  function FrameMicros(renderedFrameCount: U32): (r: U64)
    ensures r == 125 * renderedFrameCount / 6
  {
    var product := Wrap64(1000000 * renderedFrameCount);
    assert product == 8000 * (125 * renderedFrameCount);
    DivMulCancel(125 * renderedFrameCount, 6, 8000);
    product / 48000
  }

  /** Scaling both operands of a division by the same positive factor keeps
      the quotient. */
  lemma DivMulCancel(a: nat, b: nat, c: nat)
    requires b > 0 && c > 0
    ensures (c * a) / (c * b) == a / b
  {
    var q, m := a / b, a % b;
    assert a == q * b + m;
    assert c * a == q * (c * b) + c * m by {
      assert c * (q * b) == q * (c * b);
    }
    assert c * m < c * b by {
      assert c * (b - m) > 0;
    }
    DivModUnique(c * a, c * b, q, c * m);
  }

  /** The playback time handed to the renderer: `now + (frame_micros -
      speaker_micros)` with both operations wrapping at 2^64. It is congruent
      to the exact value, equals it whenever the exact value is in range
      (the speaker lagging behind or running ahead of the rendered frames),
      and is `now` when the two agree. */
  function BufferMicros(now: U64, frameMicros: U64, speakerMicros: U64): (r: U64)
    ensures (r - (now + frameMicros - speakerMicros)) % TWO_64 == 0
    ensures 0 <= now + frameMicros - speakerMicros < TWO_64 ==> r == now + frameMicros - speakerMicros
    ensures speakerMicros == frameMicros ==> r == now
  {
    var delay := Wrap64(frameMicros - speakerMicros);
    var sum := now + delay;
    CongruentSum(now, frameMicros - speakerMicros, delay);
    var r := Wrap64(sum);
    CongruentTrans(r, sum, now + frameMicros - speakerMicros);
    CongruentInRange(r, now + frameMicros - speakerMicros);
    r
  }

  /** Adding the same value keeps two numbers congruent modulo 2^64. */
  lemma CongruentSum(a: int, x: int, y: int)
    requires (y - x) % TWO_64 == 0
    ensures ((a + y) - (a + x)) % TWO_64 == 0
  {
    assert (a + y) - (a + x) == y - x;
  }

  /** Congruence modulo 2^64 is transitive. */
  lemma CongruentTrans(a: int, b: int, c: int)
    requires (a - b) % TWO_64 == 0 && (b - c) % TWO_64 == 0
    ensures (a - c) % TWO_64 == 0
  {
    var k1, k2 := (a - b) / TWO_64, (b - c) / TWO_64;
    assert a - b == k1 * TWO_64;
    assert b - c == k2 * TWO_64;
    assert a - c == (k1 + k2) * TWO_64;
    DivModUnique(a - c, TWO_64, k1 + k2, 0);
  }

  /** Two congruent numbers in [0, 2^64) are equal. */
  lemma CongruentInRange(a: int, b: int)
    requires (a - b) % TWO_64 == 0
    ensures 0 <= a < TWO_64 && 0 <= b < TWO_64 ==> a == b
  {
    var k := (a - b) / TWO_64;
    assert a - b == k * TWO_64;
    if k >= 1 {
      MulAtLeast(k, TWO_64);
    } else if k <= -1 {
      MulAtLeast(-k, TWO_64);
    }
  }

  /** When the clock cannot be read, the speaker is taken to be exactly at
      the rendered frames, so the delay is 0 and the timestamp is `now`. */
  lemma ClockFailureMeansNow(now: U64, renderedFrameCount: U32)
    ensures var frame := FrameMicros(renderedFrameCount);
      BufferMicros(now, frame, SpeakerMicros(ClockUnavailable, frame)) == now
  {
  }

  /** The uint32 frame counter wraps after 2^32 frames (about 24.85 hours
      at 48 kHz) while the device clock keeps counting: the rendered-frame
      time drops to 0 and the next timestamp lies about 89.5·10^9 µs before
      the previous one, although the renderer expects strictly increasing
      times. Here the counter stands 1200 frames before the wrap, the speaker
      is exactly at the rendered frames, and the next pass 25 ms later
      renders 1200 more. */
  lemma CounterWrapJumpsBack()
    ensures
      var before: U32 := TWO_32 - 1200;
      var after := Wrap32(before + 1200);
      var now := 100_000_000_000;
      var frame1, frame2 := FrameMicros(before), FrameMicros(after);
      var t1 := BufferMicros(now, frame1, SpeakerMicros(ClockReading(48000, before), frame1));
      var t2 := BufferMicros(now + 25000, frame2, SpeakerMicros(ClockReading(48000, before + 1200), frame2));
      && after == 0 && frame2 == 0
      && t2 < t1 && t1 - t2 > 89_000_000_000
  {
    var before: U32 := TWO_32 - 1200;
    assert Wrap32(before + 1200) == 0;
    var frame1 := FrameMicros(before);
    var s1 := SpeakerMicros(ClockReading(48000, before), frame1);
    var s2 := SpeakerMicros(ClockReading(48000, before + 1200), 0);
    assert s1 == frame1;
    assert s2 == frame1 + 25000;
  }

  /** `UINT32 frame_count = frame_end - frame_start`: the free space of the
      device buffer, wrapping at 2^32 if the padding exceeds the size. */
  function FramesToFill(bufferSize: U32, padding: U32): (r: U32)
    ensures padding <= bufferSize ==> r + padding == bufferSize
    ensures padding > bufferSize ==> r == TWO_32 + bufferSize - padding
  {
    var r := Wrap32(bufferSize - padding);
    CongruentIn32(r, TWO_32 + bufferSize - padding);
    r
  }

  /** Two numbers in [0, 2^32) that differ by a multiple of 2^32 are equal. */
  lemma CongruentIn32(a: int, b: int)
    requires (a - (b - TWO_32)) % TWO_32 == 0
    ensures 0 <= a < TWO_32 && 0 <= b < TWO_32 ==> a == b
  {
    var k := (a - b) / TWO_32;
    DivModUnique(a - b, TWO_32, k, 0);
    DivModUnique(a - (b - TWO_32), TWO_32, k + 1, 0);
    assert a - b == k * TWO_32;
    if k >= 1 {
      MulAtLeast(k, TWO_32);
    } else if k <= -1 {
      MulAtLeast(-k, TWO_32);
    }
  }

  /* =====================================================================
     The render thread's loop body (audio_callback)
     ===================================================================== */

  /** What GetBuffer answers: the device memory for the requested frames,
      AUDCLNT_E_BUFFER_ERROR, or another failure. */
  datatype BufferGrant = Granted(buffer: array<Float>) | BufferError | BufferFailed

  /** The host's answers during one iteration: GetBufferSize, GetCurrentPadding,
      GetBuffer, the device clock, now_micros(), and ReleaseBuffer. */
  datatype IterationHost = IterationHost(
    bufferSize: Option<U32>,
    padding: Option<U32>,
    grant: BufferGrant,
    clock: ClockQuery,
    nowMicros: U64,
    released: bool)

  /** What WASAPI guarantees: a granted buffer holds the requested frames
      of two floats each, and the device clock ticks at a nonzero rate. */
  predicate HostContract(host: IterationHost)
  {
    && (host.grant.Granted? && host.bufferSize.Some? && host.padding.Some? ==>
          host.grant.buffer.Length >= 2 * FramesToFill(host.bufferSize.value, host.padding.value))
    && (host.clock.ClockReading? ==> host.clock.frequency > 0)
  }

  function GrantedMemory(grant: BufferGrant): set<array<Float>>
  {
    if grant.Granted? then {grant.buffer} else {}
  }

  /** Whether the thread goes on to the next iteration or returns. */
  datatype LoopControl = NextIteration | ThreadExit(code: int)

  /** `std::vector::resize`: the first n elements, the missing ones zero. */
  function Resized(s: seq<Double>, n: nat): (r: seq<Double>)
    ensures |r| == n
    ensures forall i :: 0 <= i < n ==> r[i] == if i < |s| then s[i] else ZERO_DOUBLE
  {
    seq(n, i requires 0 <= i < n => if i < |s| then s[i] else ZERO_DOUBLE)
  }

  /** Resizes a scratch vector to n samples. */
  method Resize(a: array<Double>, n: nat) returns (b: array<Double>)
    ensures fresh(b) && b[..] == Resized(a[..], n)
  {
    b := new Double[n](_ => ZERO_DOUBLE);
    var i := 0;
    while i < n && i < a.Length
      invariant 0 <= i <= n && i <= a.Length
      invariant forall k :: 0 <= k < n ==> b[k] == if k < i then a[k] else ZERO_DOUBLE
    {
      b[i] := a[i];
      i := i + 1;
    }
  }

  /** The render thread's state across iterations. */
  class WasapiRenderThread {
    const renderer: Renderer
    var iterations: U32
    var renderedFrameCount: U32
    var leftClient: array<Double>
    var rightClient: array<Double>

    /** The state on entering the loop: both counters 0, both scratch
        vectors empty. */
    constructor(renderer: Renderer)
      ensures this.renderer == renderer
      ensures iterations == 0 && renderedFrameCount == 0
      ensures leftClient.Length == 0 && rightClient.Length == 0
    {
      this.renderer := renderer;
      iterations, renderedFrameCount := 0, 0;
      leftClient := new Double[0];
      rightClient := new Double[0];
    }

    /** The middle of a pass: resizes both scratch vectors to the free
        frames, renders them at time t, and stores left sample i at float
        2i and right sample i at float 2i+1 of the device buffer. */
    method FillDeviceBuffer(buffer: array<Float>, frameCount: U32, t: U64, narrow: Double -> Float)
      requires buffer.Length >= 2 * frameCount
      modifies this, renderer, buffer
      ensures iterations == old(iterations) && renderedFrameCount == old(renderedFrameCount)
      ensures leftClient.Length == frameCount && rightClient.Length == frameCount
      ensures renderer.calls == old(renderer.calls) + [RenderCall(t, frameCount)]
      ensures buffer[..] == Interleave(Narrowed(LeftSamples(renderer.synth, t, frameCount), narrow),
                                       Narrowed(RightSamples(renderer.synth, t, frameCount), narrow))
                            + old(buffer[2 * frameCount..])
    {
      leftClient := Resize(leftClient, frameCount);
      rightClient := Resize(rightClient, frameCount);
      renderer.RenderNext2Chn48kHz(t, frameCount, leftClient, rightClient);

      ghost var before := buffer[..];
      StridedWrite(buffer, 0, 2, leftClient, frameCount, narrow);
      StridedWrite(buffer, 1, 2, rightClient, frameCount, narrow);
      StereoStridesInterleave(before, Narrowed(leftClient[..frameCount], narrow),
                              Narrowed(rightClient[..frameCount], narrow));
    }

    /** One pass of the loop. A failed size or padding query, a failed
        GetBuffer other than AUDCLNT_E_BUFFER_ERROR, or a failed release
        ends the thread with 1; AUDCLNT_E_BUFFER_ERROR skips to the next
        pass. Otherwise the free frames are rendered at the playback time,
        left sample i is stored at float 2i and right sample i at 2i+1, and
        the counter advances by the frames once they are released. */
    method Iterate(host: IterationHost, narrow: Double -> Float) returns (control: LoopControl)
      requires HostContract(host)
      modifies this, renderer, GrantedMemory(host.grant)
      ensures iterations == Wrap32(old(iterations) + 1)
      ensures
        if host.bufferSize.None? || host.padding.None? || !host.grant.Granted? then
          && control == (if host.bufferSize.Some? && host.padding.Some? && host.grant.BufferError?
                         then NextIteration else ThreadExit(1))
          && renderedFrameCount == old(renderedFrameCount)
          && leftClient == old(leftClient) && rightClient == old(rightClient)
          && renderer.calls == old(renderer.calls)
          && (host.grant.Granted? ==> host.grant.buffer[..] == old(host.grant.buffer[..]))
        else
          var frames := FramesToFill(host.bufferSize.value, host.padding.value);
          var frameMicros := FrameMicros(old(renderedFrameCount));
          var t := BufferMicros(host.nowMicros, frameMicros, SpeakerMicros(host.clock, frameMicros));
          var buffer := host.grant.buffer;
          && leftClient.Length == frames && rightClient.Length == frames
          && renderer.calls == old(renderer.calls) + [RenderCall(t, frames)]
          && buffer[..] == Interleave(Narrowed(LeftSamples(renderer.synth, t, frames), narrow),
                                      Narrowed(RightSamples(renderer.synth, t, frames), narrow))
                           + old(buffer[2 * frames..])
          && control == (if host.released then NextIteration else ThreadExit(1))
          && renderedFrameCount == (if host.released then Wrap32(old(renderedFrameCount) + frames)
                                    else old(renderedFrameCount))
    {
      iterations := Wrap32(iterations + 1);
      if host.bufferSize.None? { return ThreadExit(1); }
      var frameEnd := host.bufferSize.value;
      if host.padding.None? { return ThreadExit(1); }
      var frameStart := host.padding.value;
      var frameCount := FramesToFill(frameEnd, frameStart);

      if host.grant.BufferError? { return NextIteration; }
      if host.grant.BufferFailed? { return ThreadExit(1); }
      var buffer := host.grant.buffer;

      var frameMicros := FrameMicros(renderedFrameCount);
      var speakerMicros := SpeakerMicros(host.clock, frameMicros);
      var bufferMicros := BufferMicros(host.nowMicros, frameMicros, speakerMicros);
      FillDeviceBuffer(buffer, frameCount, bufferMicros, narrow);

      if !host.released { return ThreadExit(1); }
      renderedFrameCount := Wrap32(renderedFrameCount + frameCount);
      control := NextIteration;
    }
  }
}
