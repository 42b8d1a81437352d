/** The ALSA back-end: the audio thread's working memory, carved from one
    byte vector into two render buffers and one output buffer, the push
    loop that renders, interleaves, writes and advances a synthetic clock,
    and the teardown. */
module AlsaAudio {
  import opened Audio
  import opened Arith

  /** sizeof(double) and sizeof(float) */
  const DOUBLE_BYTES: nat := 8
  const FLOAT_BYTES: nat := 4

  /** 25 ms at 48 kHz */
  const FRAME_COUNT: nat := 1200
  /** The play time of one period, `1000000 * frameCount / 48000`. */
  const PERIOD_MICROS: nat := 25000

  /** The byte range [start, start + size) of the working memory. */
  datatype Region = Region(start: nat, size: nat)

  predicate Disjoint(a: Region, b: Region)
  {
    a.start + a.size <= b.start || b.start + b.size <= a.start
  }

  predicate Inside(a: Region, memorySize: nat)
  {
    a.start + a.size <= memorySize
  }

  /** The audio thread's working memory and the three buffers carved from
      it. The two render buffers and the output buffer are kept as arrays
      of their own; `renderBuffer0Offset` and the like record where the
      source places each of them in the byte vector. */
  class AudioThreadState {
    var memorySize: nat
    var frameCount: int
    var renderBuffer0Offset: nat
    var renderBuffer1Offset: nat
    var outputBufferOffset: nat
    var renderBuffer0: array<Double>
    var renderBuffer1: array<Double>
    var outputBuffer: array<Float>

    /** The render buffers hold frameCount doubles each and the output
        buffer two floats per frame. */
    function Regions(): (r: seq<Region>)
      reads this
      requires frameCount >= 0
      ensures |r| == 3
    {
      [Region(renderBuffer0Offset, DOUBLE_BYTES * frameCount),
       Region(renderBuffer1Offset, DOUBLE_BYTES * frameCount),
       Region(outputBufferOffset, FLOAT_BYTES * 2 * frameCount)]
    }

    /** The carving is sound: each region lies inside the memory, no two
        overlap, and the arrays standing for them have the regions' sizes. */
    predicate Valid()
      reads this
    {
      && frameCount == FRAME_COUNT
      && (forall k :: 0 <= k < 3 ==> Inside(Regions()[k], memorySize))
      && (forall k, k' :: 0 <= k < k' < 3 ==> Disjoint(Regions()[k], Regions()[k']))
      && renderBuffer0.Length == frameCount && renderBuffer1.Length == frameCount
      && outputBuffer.Length == 2 * frameCount
      && renderBuffer0 != renderBuffer1
    }

    /** initAudioThreadState: 1200 frames, a zeroed memory of 2400 doubles
        followed by 2400 floats, render buffer 1 starting frameCount doubles
        after render buffer 0, and the output buffer right after both. */
    constructor InitAudioThreadState()
      ensures Valid()
      ensures fresh(renderBuffer0) && fresh(renderBuffer1) && fresh(outputBuffer)
      ensures memorySize == 28800
      ensures renderBuffer0Offset == 0 && renderBuffer1Offset == 9600 && outputBufferOffset == 19200
    {
      var frames := 25 * 48000 / 1000;
      var compCount := 2 * frames;
      var sizeofRenderBuffers := DOUBLE_BYTES * compCount;
      var sizeofOutputBuffer := FLOAT_BYTES * compCount;

      frameCount := frames;
      memorySize := sizeofRenderBuffers + sizeofOutputBuffer;
      var front := 0;
      renderBuffer0Offset := front;
      renderBuffer1Offset := front + DOUBLE_BYTES * frames;
      outputBufferOffset := sizeofRenderBuffers;
      renderBuffer0 := new Double[frames](_ => ZERO_DOUBLE);
      renderBuffer1 := new Double[frames](_ => ZERO_DOUBLE);
      outputBuffer := new Float[2 * frames](_ => 0);
    }
  }

  /** The carving of initAudioThreadState is sound for every frame count: a
      memory of 2n doubles and 2n floats holds render buffers of n doubles
      at byte 0 and byte 8n and an output buffer of 2n floats at byte 16n,
      without overlap. */
  lemma CarvingSound(n: nat)
    ensures var regions := [Region(0, DOUBLE_BYTES * n), Region(DOUBLE_BYTES * n, DOUBLE_BYTES * n),
                            Region(DOUBLE_BYTES * 2 * n, FLOAT_BYTES * 2 * n)];
      && (forall k :: 0 <= k < 3 ==> Inside(regions[k], DOUBLE_BYTES * 2 * n + FLOAT_BYTES * 2 * n))
      && (forall k, k' :: 0 <= k < k' < 3 ==> Disjoint(regions[k], regions[k']))
  {
  }

  /** A request the back-end made of ALSA or the thread library. */
  datatype AlsaRequest =
    | WriteInterleaved(samples: seq<Float>, frames: nat)
    | Recover(error: int)
    | CancelThread
    | Drain(device: nat)
    | Close(device: nat)

  /** The times of the render calls of n periods starting at t0: one period
      apart, wrapping at 2^64. */
  function RenderSchedule(t0: U64, n: nat): (r: seq<RenderCall>)
    ensures |r| == n
    ensures forall k :: 0 <= k < n ==> r[k] == RenderCall(Wrap64(t0 + PERIOD_MICROS * k), FRAME_COUNT)
  {
    seq(n, k requires 0 <= k < n => RenderCall(Wrap64(t0 + PERIOD_MICROS * k), FRAME_COUNT))
  }

  /** Wrapping after each addition is wrapping once at the end. */
  lemma WrapAdd(t: int, d: int)
    ensures Wrap64(Wrap64(t) + d) == Wrap64(t + d)
  {
    var a := Wrap64(t);
    var k := (t - a) / TWO_64;
    DivModUnique(t - a, TWO_64, k, 0);
    var x, y := Wrap64(a + d), Wrap64(t + d);
    var i, j := (a + d - x) / TWO_64, (t + d - y) / TWO_64;
    DivModUnique(a + d - x, TWO_64, i, 0);
    DivModUnique(t + d - y, TWO_64, j, 0);
    assert x - y == (j - i - k) * TWO_64;
    var m := j - i - k;
    if m >= 1 {
      MulAtLeast(m, TWO_64);
    } else if m <= -1 {
      MulAtLeast(-m, TWO_64);
    }
  }

  /** Render times are strictly increasing, one period apart, for as long as
      the exact time stays below 2^64; the time a render call receives is
      the start time plus one period per earlier iteration. */
  lemma {:induction false} RenderTimesIncrease(t0: U64, n: nat, j: nat, k: nat)
    requires j < k < n && t0 + PERIOD_MICROS * k < TWO_64
    ensures RenderSchedule(t0, n)[j].timeMicros == t0 + PERIOD_MICROS * j
    ensures RenderSchedule(t0, n)[j].timeMicros + PERIOD_MICROS * (k - j) == RenderSchedule(t0, n)[k].timeMicros
    ensures RenderSchedule(t0, n)[j].timeMicros < RenderSchedule(t0, n)[k].timeMicros
  {
    assert PERIOD_MICROS * j <= PERIOD_MICROS * k;
    assert PERIOD_MICROS * k == PERIOD_MICROS * j + PERIOD_MICROS * (k - j);
  }

  /** The audio thread: its memory, the synthetic clock `micros`, the
      requests it made, and the renderer it feeds. */
  class AudioThread {
    const renderer: Renderer
    const state: AudioThreadState
    var micros: U64
    var requests: seq<AlsaRequest>

    /** audio_thread's prologue: initialises the memory and starts the
        clock at 0. */
    constructor(renderer: Renderer)
      ensures this.renderer == renderer && state.Valid()
      ensures fresh(state) && fresh(state.renderBuffer0) && fresh(state.renderBuffer1) && fresh(state.outputBuffer)
      ensures micros == 0 && requests == []
    {
      this.renderer := renderer;
      state := new AudioThreadState.InitAudioThreadState();
      micros := 0;
      requests := [];
    }

    /** One pass of the loop: renders a period at `micros`, interleaves it
        into the output buffer, writes it; a negative write result is passed
        to snd_pcm_recover exactly once, and a result still negative is only
        logged. The clock then advances by one period whatever happened.
        Returns the final frame count the pass saw. */
    method Iterate(writeResult: int, recoverResult: int, narrow: Double -> Float) returns (frames: int)
      requires state.Valid()
      modifies this, renderer, state.renderBuffer0, state.renderBuffer1, state.outputBuffer
      ensures state.Valid()
      ensures micros == Wrap64(old(micros) + PERIOD_MICROS)
      ensures renderer.calls == old(renderer.calls) + [RenderCall(old(micros), FRAME_COUNT)]
      ensures state.outputBuffer[..] ==
        Interleave(Narrowed(LeftSamples(renderer.synth, old(micros), FRAME_COUNT), narrow),
                   Narrowed(RightSamples(renderer.synth, old(micros), FRAME_COUNT), narrow))
      ensures requests == old(requests) + [WriteInterleaved(state.outputBuffer[..], FRAME_COUNT)]
                          + (if writeResult < 0 then [Recover(writeResult)] else [])
      ensures frames == if writeResult < 0 then recoverResult else writeResult
    {
      var frameCount := state.frameCount;
      renderer.RenderNext2Chn48kHz(micros, state.frameCount, state.renderBuffer0, state.renderBuffer1);
      InterleaveInto(state.outputBuffer, state.renderBuffer0, state.renderBuffer1, frameCount, narrow);

      requests := requests + [WriteInterleaved(state.outputBuffer[..], frameCount)];
      frames := writeResult;
      if frames < 0 {
        requests := requests + [Recover(frames)];
        frames := recoverResult;
      }
      micros := Wrap64(micros + 1000000 * frameCount / 48000);
    }

    /** The first n passes of the endless loop, with the write and recover
        results of each. */
    method Run(n: nat, writeResults: seq<int>, recoverResults: seq<int>, narrow: Double -> Float)
      requires state.Valid() && |writeResults| == n && |recoverResults| == n
      modifies this, renderer, state.renderBuffer0, state.renderBuffer1, state.outputBuffer
      ensures state.Valid()
      ensures micros == Wrap64(old(micros) + PERIOD_MICROS * n)
      ensures renderer.calls == old(renderer.calls) + RenderSchedule(old(micros), n)
    {
      var k := 0;
      while k < n
        invariant 0 <= k <= n && state.Valid()
        invariant micros == Wrap64(old(micros) + PERIOD_MICROS * k)
        invariant renderer.calls == old(renderer.calls) + RenderSchedule(old(micros), k)
      {
        ghost var calls := renderer.calls;
        var _ := Iterate(writeResults[k], recoverResults[k], narrow);
        WrapAdd(old(micros) + PERIOD_MICROS * k, PERIOD_MICROS);
        assert RenderSchedule(old(micros), k + 1) == RenderSchedule(old(micros), k)
          + [RenderCall(Wrap64(old(micros) + PERIOD_MICROS * k), FRAME_COUNT)];
        k := k + 1;
      }
    }
  }

  /** The interleaving loop: left sample i at float 2i, right sample i at
      float 2i+1, each narrowed to float. */
  method InterleaveInto(output: array<Float>, left: array<Double>, right: array<Double>, frameCount: nat,
                        narrow: Double -> Float)
    requires left.Length >= frameCount && right.Length >= frameCount && output.Length == 2 * frameCount
    modifies output
    ensures output[..] == Interleave(Narrowed(left[..frameCount], narrow), Narrowed(right[..frameCount], narrow))
  {
    for i := 0 to frameCount
      invariant forall k :: 0 <= k < 2 * i ==>
        output[k] == if k % 2 == 0 then narrow(left[k / 2]) else narrow(right[k / 2])
    {
      output[2 * i] := narrow(left[i]);
      output[2 * i + 1] := narrow(right[i]);
    }
    InterleavePointwise(output[..], Narrowed(left[..frameCount], narrow), Narrowed(right[..frameCount], narrow));
  }

  /** The back-end's static state: the PCM handle (None for NULL) and the
      requests made. */
  class AlsaOutput {
    var device: Option<nat>
    var requests: seq<AlsaRequest>

    constructor(device: Option<nat>)
      ensures this.device == device && requests == []
    {
      this.device := device;
      requests := [];
    }

    /** close_stream: with a device, cancels the audio thread, then drains
        and closes the device, ignoring both results. The handle is never
        cleared, so every further call repeats all three requests. */
    method CloseStream()
      modifies this
      ensures device == old(device)
      ensures requests == old(requests) +
        (if old(device).Some? then [CancelThread, Drain(old(device).value), Close(old(device).value)] else [])
    {
      if device.Some? {
        requests := requests + [CancelThread];
        requests := requests + [Drain(device.value)];
        requests := requests + [Close(device.value)];
      }
    }
  }
}
