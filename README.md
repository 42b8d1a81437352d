# Stereo audio output engine and window geometry, modelled in Dafny

This project models the deterministic bookkeeping of a small demo runtime's
per-platform audio output. The engine renders 48 kHz stereo through a
client entry point, `render_next_2chn_48khz_audio`. The model also covers
the integer geometry of the GLUT window front-ends. Every operating-system
call becomes an input of the model: CoreAudio HAL properties, COM/WASAPI
interfaces, ALSA, threads, events and the clock. Only what the engine
computes from those answers is modelled and proved.

The project has six modules:

- `Audio` (common.dfy) holds the shared vocabulary:
  - C integer widths and wrap-around (`U32`, `U64`, `Wrap32`, `Wrap64`);
  - samples as bit patterns (`Double`, `Float`), with the `(float)` cast as a parameter `narrow`;
  - the render contract, a `Renderer` that logs its calls and fills both channels from a function of (time, sample index);
  - the strided copy loop;
  - stereo interleaving.
- `DarwinAudio` (darwin_audio.dfy) is the CoreAudio back-end:
  - the IOProc channel router (`AudioCallback`);
  - the stream and format negotiation of `open_stereo48khz_stream`;
  - `close_stream`.
- `WasapiAudio` (nt_audio.dfy) is the Windows back-end:
  - the shared-mode setup (requested format, stream flags, rate adjustment);
  - `get_speaker_micros`;
  - the playback timestamp;
  - one pass of the event-driven render thread.
- `AlsaAudio` (linux_audio.dfy) is the Linux back-end:
  - the carving of the audio thread's working memory;
  - the push loop (render, interleave, write, recover, clock step);
  - `close_stream`.
- `WindowGeometry` (window.dfy) holds:
  - `constraint_to_ratio`;
  - the centred game-mode viewport of `reshape_callback`;
  - the `main_window_wh` state of the two GLUT front-ends.
- `Arith` (arith.dfy) holds division facts the solver needs.

## Where the code differs from its evident intent

The model follows the code as written. In these places the code does
something other than what its own comments, names or sibling back-ends
suggest was meant:

- Stream filter (Darwin). A stream is examined only when its starting
  channel is exactly one of the pending targets. A target that falls inside
  a stream's channel range but not at its start is never matched.
- Rate tolerance (Darwin). `!fabs(preferred_hz - rate) < 0.01` parses as
  `(!fabs(...)) < 0.01`. A ±0.01 Hz tolerance was evidently meant, but a
  fixed rate is accepted only at exactly 48000 Hz (`RateAcceptableIff`,
  `NearRateRefused`).
- Format flags (Darwin). A description is taken only when its flags equal
  float|packed exactly, so one that carries harmless extra flags on top of
  float|packed is passed over.
- No early stop (Darwin). After both channels resolve, the loop still walks
  the remaining streams. A later stream changes nothing unless it starts at
  channel 0 (`ResolvedStateIsStable`, `UnsupportedStreamPassedOver`).
- A resolved target reads as 0 (Darwin). So a stream starting at channel 0
  can overwrite the left channel with 0 (`ZeroStartingChannelClearsLeft`).
  A stereo stream found at the right target after a mono left stream also
  copies the cleared left target (`StereoAfterMonoClearsLeft`). In both
  cases the open still succeeds. Running channel numbers start at 1, so
  channel 0 is never bound: every IOProc call then gives up and the device
  plays silence for as long as it runs (`ChannelZeroNeverBinds`).
- Exit hook (Darwin). The exit hook is registered only when the device
  started, although the IDs are already set when only the start failed.
- Clock fallback (WASAPI). When the clock cannot be read, the fallback is
  the rendered-frame time, which makes the delay 0. The timestamp is then
  exactly `now` (`ClockFailureMeansNow`).
- Speaker clock wrap (WASAPI). `1e6 * pos` is computed in 64 bits, so once
  the device position passes 2^64 / 10^6 ticks the speaker time jumps back
  (`SpeakerMicros` states the quotient of the wrapped product). With a
  10 MHz device clock this happens after about 21 days of playback.
- Frame counter wrap (WASAPI). The rendered-frame counter is a `UINT32`,
  so after 2^32 frames (about 24.85 hours at 48 kHz) the rendered-frame
  time drops back to 0 while the device clock keeps growing. The next
  timestamp then lies about 89.5·10^9 µs before the previous one, against
  the strict time order the renderer is promised in include/micros/api.h
  (`CounterWrapJumpsBack`). This comes long before the speaker clock wrap.
- Unsupported-format branch (WASAPI). `AUDCLNT_E_UNSUPPORTED_FORMAT` is a
  failure code, so the first check after `IsFormatSupported` already
  rejects it. The dedicated branch for it is never reached.
- Recovery (ALSA). A failed write is passed to `snd_pcm_recover` once and
  the loop moves on to the next period. The same period is not written
  again.
- ALSA close is not idempotent. `close_stream` never clears `device`, so a
  second call cancels, drains and closes again. The Darwin `close_stream`
  clears its IDs and is idempotent.

## Model

| member | source | states |
|---|---|---|
| `Audio.Renderer.RenderNext2Chn48kHz` | include/micros/api.h:28-40 | one call is logged with its time and count; both channels' first `sampleCount` samples are the synthesised signal at that time; the rest of each buffer is untouched |
| `Audio.StridedWrite` | runtime/Darwin/play-audio.cpp:93-99 | the copy loop stores the narrowed sample i at base + i·stride for every i below the count, and every other float of the destination keeps its value |
| `Audio.StereoStridesInterleave` | runtime/NT/play-audio.cpp:150-156 | the stride-2 writes at base 0 and base 1 leave the first 2n floats holding the interleaving of left and right; every later float is unchanged |
| `Audio.InterleaveRoundTrip` | runtime/Linux/play-audio.cpp:71-74 | de-interleaving an interleaved buffer returns both channels unchanged |
| `Audio.InterleavePointwise` | runtime/Linux/play-audio.cpp:71-74 | a buffer whose even floats are the left samples and whose odd floats are the right samples is exactly their interleaving |
| `DarwinAudio.BindCharacterization` | runtime/Darwin/play-audio.cpp:46-66 | an output is bound to channel j of buffer i iff buffer i has data, j is one of its channels, and the running channel number (from 1, counting channels of data-less buffers too) is the selected one; a bound output takes the buffer's channel count as stride and byteSize/channels/4 as frame count; an unbound one stays `{NULL, 1, 0}` |
| `DarwinAudio.BindOutputs` | runtime/Darwin/play-audio.cpp:36-66 | the nested binding loops leave each output equal to the last match of its selected channel over the whole buffer list |
| `DarwinAudio.LastFrameFits` | runtime/Darwin/play-audio.cpp:50-60 | the last frame of any channel of a buffer, offset + (frameCount−1)·channels, is below byteSize/4 |
| `DarwinAudio.BoundOutputFits` | runtime/Darwin/play-audio.cpp:50-60 | a bound output's buffer exists and has data, and every frame it writes lies inside that buffer |
| `DarwinAudio.BoundOutputsRoutable` | runtime/Darwin/play-audio.cpp:68-99 | when the callback does not give up, both outputs can be copied to without leaving their buffers |
| `DarwinAudio.AudioCallback` | runtime/Darwin/play-audio.cpp:25-102 | returns noErr; on differing frame counts or an unbound side, nothing is rendered or written; otherwise one render call at the output time with the frame count, and every hardware buffer equals its old contents with the left and then the right samples stored at their strided slots |
| `DarwinAudio.CopyToHardware` | runtime/Darwin/play-audio.cpp:93-99 | after the two copy loops each buffer holds the left output's frames and then the right output's frames at their strided slots; other buffers and other floats are unchanged |
| `DarwinAudio.InterleavedStereoBuffer` | runtime/Darwin/play-audio.cpp:46-99 | one data buffer of 2 channels and n frames with channels 1 and 2 selected is not skipped, and the callback leaves it holding the interleaving of the two channels |
| `DarwinAudio.RateAcceptableIff` | runtime/Darwin/play-audio.cpp:263-271 | a description passes the rate test iff it is any-rate with 48000 in its range or its fixed rate is exactly 48000 |
| `DarwinAudio.NearRateRefused` | runtime/Darwin/play-audio.cpp:263-271 | a fixed rate of 48000.005 Hz is refused |
| `DarwinAudio.FirstAcceptable` | runtime/Darwin/play-audio.cpp:256-279 | the chosen description passes all three checks and every earlier one fails one; None only when none passes |
| `DarwinAudio.ScanStreams` | runtime/Darwin/play-audio.cpp:204-314 | the nested stream/description loops compute exactly the fold of the stream list: skipping by starting channel, aborting on a failed format query or a refused format set, resolving the covered roles |
| `DarwinAudio.AbortIsFinal` | runtime/Darwin/play-audio.cpp:232-254 | after an abort, later streams change nothing |
| `DarwinAudio.ExamineStreamKeepsInvariant` | runtime/Darwin/play-audio.cpp:296-311 | examining one stream keeps pending targets equal to the preferred channels, resolved targets at 0, and each role's channel equal to its preferred channel or 0 |
| `DarwinAudio.ScanInvariantHolds` | runtime/Darwin/play-audio.cpp:204-314 | after any prefix of streams: the targets and channels invariant holds; every format set was linear PCM float|packed relabelled 48000 Hz, at most one per stream and in stream order |
| `DarwinAudio.ResolvedStateIsStable` | runtime/Darwin/play-audio.cpp:207-226 | once both targets are 0, streams not starting at channel 0 leave the negotiation unchanged |
| `DarwinAudio.NegotiationSound` | runtime/Darwin/play-audio.cpp:136-320 | a successful negotiation names a nonzero device and binds each role to its preferred channel or 0, with well-formed formats set; a refused one set only well-formed formats too |
| `DarwinAudio.StereoStreamResolves` | runtime/Darwin/play-audio.cpp:296-311 | a stereo stream at the left target resolves both roles to the preferred pair |
| `DarwinAudio.UnsupportedStreamPassedOver` | runtime/Darwin/play-audio.cpp:256-313 | a stream with only a 44.1 kHz description is passed over, and the next stereo stream resolves both roles with one format set on it |
| `DarwinAudio.MonoStreamsResolve` | runtime/Darwin/play-audio.cpp:298-305 | a mono stream per target resolves left then right |
| `DarwinAudio.LeftOnlyIsUnresolved` | runtime/Darwin/play-audio.cpp:316-320 | with only the left target covered the open gives up (ChannelUnresolved) after setting that stream's format |
| `DarwinAudio.StereoAfterMonoClearsLeft` | runtime/Darwin/play-audio.cpp:296-311 | a stereo stream at the right target after a mono left stream binds the left role to 0 and still succeeds |
| `DarwinAudio.ZeroStartingChannelClearsLeft` | runtime/Darwin/play-audio.cpp:207-226 | after resolution, a mono stream starting at channel 0 matches the zeroed left target and overwrites the left role with 0 |
| `DarwinAudio.ChannelZeroNeverBinds` | runtime/Darwin/play-audio.cpp:46-76 | with running channel numbers starting at 1, a role selecting channel 0 stays `{NULL, 1, 0}`, and the callback gives up whatever the other role is |
| `DarwinAudio.CoreAudioOutput.constructor` | runtime/Darwin/play-audio.cpp:120-121 | both static IDs start at 0 |
| `DarwinAudio.CoreAudioOutput.OpenStereo48kHzStream` | runtime/Darwin/play-audio.cpp:136-342 | every chosen format is set; on refusal or IOProc failure the IDs and exit hooks are unchanged; otherwise the IDs become the device and IOProc, the IOProc is created for the negotiated channels, and only a successful start adds the start and one exit hook |
| `DarwinAudio.CoreAudioOutput.CloseStream` | runtime/Darwin/play-audio.cpp:123-133 | acts only when both IDs are nonzero: stop, destroy only after a successful stop, then both IDs are 0 whatever happened; afterwards one of them is 0, so a second call is a no-op |
| `WasapiAudio.RequestedFormatConsistent` | runtime/NT/play-audio.cpp:193-206 | the requested format is 2 channels at 48000 Hz with 32-bit samples, block align 8 = channels·bits/8 and 384000 bytes/s = rate·block align |
| `WasapiAudio.OpenStereo48kHzStream` | runtime/NT/play-audio.cpp:167-270 | each failing step aborts with that step's name (COM, enumerator, default device, activation, format query, format mismatch, initialisation, clock adjustment service, rate set, event handle); the stream starts iff every COM step succeeds, the format is supported or offered with the same extensible size, the client initialises, the rate is adjusted when needed and the event is set; the started format is the offered one if any; flags always hold EVENTCALLBACK, hold RATEADJUST iff the rate is not 48000, and hold nothing else |
| `WasapiAudio.SpeakerMicros` | runtime/NT/play-audio.cpp:44-57 | the fallback when the clock cannot be read; otherwise the largest r with r·freq ≤ (1e6·pos mod 2^64), which is the exact floor of 1e6·pos/freq while that product fits in 64 bits |
| `WasapiAudio.FrameMicros` | runtime/NT/play-audio.cpp:135-136 | the 64-bit product never wraps for a 32-bit count, and the result is ⌊125·count/6⌋ |
| `WasapiAudio.BufferMicros` | runtime/NT/play-audio.cpp:139-142 | the timestamp is congruent to now + frame − speaker mod 2^64, equals it whenever it is in range, and is now when speaker = frame |
| `WasapiAudio.ClockFailureMeansNow` | runtime/NT/play-audio.cpp:135-142 | when the clock cannot be read the timestamp is exactly now |
| `WasapiAudio.CounterWrapJumpsBack` | runtime/NT/play-audio.cpp:135-161 | when the uint32 frame counter wraps to 0 between two passes 25 ms apart, the rendered-frame time drops to 0 and the second timestamp lies more than 89·10^9 µs before the first |
| `WasapiAudio.FramesToFill` | runtime/NT/play-audio.cpp:97-110 | the frames to fill plus the padding give the buffer size; a padding above the size wraps to 2^32 + size − padding |
| `WasapiAudio.Resize` | runtime/NT/play-audio.cpp:132-133 | the resized vector keeps the first elements and zero-fills the rest |
| `WasapiAudio.WasapiRenderThread.constructor` | runtime/NT/play-audio.cpp:85-92 | both counters start at 0 with empty scratch vectors |
| `WasapiAudio.WasapiRenderThread.FillDeviceBuffer` | runtime/NT/play-audio.cpp:123-156 | both vectors hold the frame count; one render call at the timestamp; the device buffer's first 2n floats are the interleaved narrowed samples and the rest is unchanged |
| `WasapiAudio.WasapiRenderThread.Iterate` | runtime/NT/play-audio.cpp:93-162 | iterations wraps up by one; a failed size, padding, buffer or release query ends the thread with 1; on those paths and on BUFFER_ERROR (which continues) nothing is rendered or written and both scratch vectors are kept; otherwise one render at the timestamp, interleaved output, and the counter wraps up by the frames only after a successful release |
| `AlsaAudio.AudioThreadState.InitAudioThreadState` | runtime/Linux/play-audio.cpp:42-55 | 1200 frames, 28800 bytes of memory, render buffers at bytes 0 and 9600, output at byte 19200; the three regions lie inside the memory and are pairwise disjoint |
| `AlsaAudio.CarvingSound` | runtime/Linux/play-audio.cpp:44-54 | for any frame count the three regions carved from 2n doubles plus 2n floats lie inside the memory and do not overlap |
| `AlsaAudio.RenderTimesIncrease` | runtime/Linux/play-audio.cpp:64-86 | render call k gets start + 25000·k; calls are strictly increasing and one period apart while that stays below 2^64 |
| `AlsaAudio.AudioThread.constructor` | runtime/Linux/play-audio.cpp:57-64 | the memory is carved soundly and the clock starts at 0 |
| `AlsaAudio.AudioThread.Iterate` | runtime/Linux/play-audio.cpp:65-87 | one render at the current time; the output buffer holds the interleaved narrowed samples and is written; a negative result is recovered exactly once; the clock advances by 25000 µs whatever the result |
| `AlsaAudio.AudioThread.Run` | runtime/Linux/play-audio.cpp:64-87 | after n passes the renderer was called at start + 25000·k (mod 2^64) for k < n, and the clock is start + 25000·n |
| `AlsaAudio.InterleaveInto` | runtime/Linux/play-audio.cpp:71-74 | the loop leaves the output equal to the interleaving of the narrowed left and right samples |
| `AlsaAudio.AlsaOutput.CloseStream` | runtime/Linux/play-audio.cpp:31-40 | with a device: cancel, drain and close, in order, and the device is kept; without one nothing happens |
| `WindowGeometry.ConstraintToRatio` | runtime/Darwin/gl-window-callbacks.cpp:23-35 | the box becomes the fitted box: width kept and height derived by truncating division, or, if that height overflows the box, height kept and width derived |
| `WindowGeometry.FitInsideBox` | runtime/Darwin/gl-window-callbacks.cpp:23-35 | for positive ratios and a non-negative box the fitted width and height are non-negative and never exceed the box |
| `WindowGeometry.FitMatchesRatio` | runtime/Darwin/open-gl-window.cpp:56-68 | the fitted box keeps one side of the original and its other side is that side scaled by the ratio, rounded down |
| `WindowGeometry.FitKeepsExactBox` | runtime/Darwin/open-gl-window.cpp:56-68 | a box that already has the ratio is unchanged |
| `WindowGeometry.ReshapeCallback` | runtime/Darwin/gl-window-callbacks.cpp:37-50 | outside game mode the viewport is (0, 0, width, height); in game mode it is the fitted size at the centring offsets |
| `WindowGeometry.GameModeViewportCentred` | runtime/Darwin/open-gl-window.cpp:70-83 | the game-mode offsets are non-negative and split the spare room evenly, the odd pixel going to the far side |
| `WindowGeometry.WindowCallbacks.constructor` | runtime/Darwin/gl-window-callbacks.cpp:12 | the ratio starts as {1980, 720} |
| `WindowGeometry.WindowCallbacks.RegisterWindowCallbacks` | runtime/Darwin/gl-window-callbacks.cpp:74-76 | both ratio entries are overwritten with the window size |
| `WindowGeometry.GlutWindow.constructor` | runtime/Darwin/open-gl-window.cpp:45 | the ratio starts as {640, 480} |
| `WindowGeometry.GlutWindow.OpenWindow` | runtime/Darwin/open-gl-window.cpp:117-132 | the ratio becomes the screen size, each side scaled by 1/√2 unless full screen is preferred |

## Left out

- Foreign calls are inputs: CoreAudio property queries and sets, COM/WASAPI calls, ALSA calls, thread creation and cancellation, and events. Each back-end receives their answers as a datatype of results (`HalDevice`, `WasapiHost`, `IterationHost`, write and recover results).
- The clock is a parameter. `now_micros()`, `clock_ticks_to_microseconds` and the IOProc's output host time are given as numbers. The clock implementation is not part of this model.
- Floating point is not interpreted. Samples are 64- and 32-bit patterns and the `(float)` cast is a parameter. `(uint64_t)1e6` is the integer 1000000. Darwin sample rates are real numbers, so NaN rates are not modelled.
- The window's 1/√2 scaling is a parameter `shrink`.
- Endless loops: the WASAPI and ALSA loops are modelled one pass at a time. `AlsaAudio.AudioThread.Run` drives the first n passes.
- The WASAPI thread prologue (fetching the render client and clock services, the first size query, `reserve`) and the waits on events are left out. They are COM plumbing outside the loop body.
- `AlsaAudio.AudioThreadState.InitAudioThreadState`: the byte vector is represented by its size and three byte offsets. The contents of the three regions are three separate arrays. The proved disjointness of the regions is what allows that split.
- The ALSA `open_stereo48khz_stream` is left out as device plumbing: device open, `snd_pcm_set_params`, start and the one-second silence prefill.
- `pick_gamemode_resolution` is left out: it only drives GLUT, and as written its loop bound is 0.
- Window, GLUT and GL setup, event loops, timers and key/mouse handlers are left out. So are the other window front-ends and the runtime glue files.
- WindowGeometry.ConstraintToRatio: C `int` overflow of the products `box[0]*ratio[1]` and `height*ratio[0]` is not modelled; the arithmetic is unbounded with C's truncating division.
- DarwinAudio.AudioCallback: the conversion of a hardware channel number in `int channels[2]` from a `UInt32` above 2^31 is not modelled.
- DarwinAudio.AudioCallback: a zero frame count is rendered as an empty call, although C declares a zero-length array there.
- WasapiAudio.WasapiRenderThread.Iterate: a zero frame count is rendered as an empty call, although `&vector.front()` on an empty vector is undefined in C.
- DarwinAudio.AudioCallback: a buffer with zero channels is excluded by `ValidBufferList`; the callback divides by every buffer's channel count, so such a buffer is a division by zero, undefined in C.
- DarwinAudio.BindOutputs: the same `ValidBufferList` exclusion of zero-channel buffers applies, for the same reason.
- WindowGeometry.ConstraintToRatio: a zero ratio entry used as a divisor is excluded by `FitDefined`; the C code divides by it unguarded, which is undefined, and `register_window_callbacks` can store such a ratio.
- WindowGeometry.ReshapeCallback: in game mode the same `FitDefined` exclusion applies, for the same reason.
- The strict time order of render calls promised in include/micros/api.h is proved only for ALSA (`RenderTimesIncrease`). On Darwin it rests on the HAL's output timestamps, which are a parameter of the model. On WASAPI it does not hold in general (`CounterWrapJumpsBack`).
- WasapiAudio.SpeakerMicros: a device clock frequency of 0 is excluded by its precondition, as WASAPI never reports one.
