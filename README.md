# virtual-synth core, modelled in Dafny

This project models the sequential core of the virtual-synth software synthesizer, which is written in C++ for Windows. Four Dafny modules, one per core source file, cover it:

- `Oscillators` (`oscillator.dfy`) covers the oscillator's parameter record (`oscParams`) and its defaults. It also covers every setter of `Oscillator` and the channel/amplitude scaling at the end of `Play`. The class `Oscillator` owns one `OscParams` value, and its methods reassign it. The pure function `Apply` states what each setter call does to the record, and `Run` replays a sequence of calls. Lemmas about `Run` give the multi-call properties: AM and FM accumulation, `ResetAM` restoring the volume, and the amplitude staying non-negative.
- `Envelopes` (`envelope.dfy`) covers the ADSR envelope. `Sample` is `GetAmplitude` as a function of the envelope state and a clock reading. The class `Envelope` has the source's fields, and its methods are proved equal to `Sample`, `Start` and `Stop`. Lemmas cover the attack, decay, sustain and release phases and expiry. They also cover a sustain-0 defect (see "Findings").
- `MiscDsp` (`misc_dsp.dfy`) covers the stateful filters and `BitCrush`:
  - The low-pass and high-pass filters are the class `LastSampleFilter`, with a two-slot `array<real>` and a toggling slot index.
  - The notch and band-pass filters are the class `DelayLineFilter`, with two deques of history, kept as sequences.
  - Pure step functions specify each filter, and run functions describe whole input streams.
  - `BitCrush` rounds up to a grid of step 1/2^(bits-1). It is proved to lie on the grid, at or above its input, less than one step above it, and idempotent.
- `Audio` (`audio_interface.dfy`) covers the block-buffer bookkeeping of `AudioInterface`:
  - `Clip`, the conversion of a sample to 16 bits, and the device lookup by name.
  - `Create`'s state set-up and its header/block layout.
  - One iteration of the generation loop in `MainThread` (`FillBlock`).
  - The completion callback (`WaveOutProc`), `Destroy` and `Stop`.

  A ghost counter `inFlight` counts the blocks handed to the device. The invariant `Valid` states that every block is either free or with the device, that each header is linked to its own block, and that the current block exists.

The class keeps `GetAmplitude` as the source has it. Where the intended behaviour differs, a corrected function sits beside it, and the difference is proved.

When no output device has the requested name, `Create` skips the open, still allocates the buffers, and returns true (AudioInterface.cpp:36-52, 79-87). `Audio.AudioInterface.Create` states exactly that.

## Model

| member | source | states |
|---|---|---|
| Oscillators.ClampOctave | Oscillator.cpp:93-101 | the stored octave lies in [-4, 4]: a value already in range is kept, one below -4 becomes -4, one above 4 becomes 4 |
| Oscillators.ClampModulation | Oscillator.cpp:67-81 | the modulation used by SetAM/AddAM is never negative: a non-negative value is kept, a negative one becomes 0 |
| Oscillators.WithChannelVolume | Oscillator.cpp:24-30 | a channel above 3 leaves the record unchanged; otherwise exactly slot `ch` becomes `v`, and the other slots and fields are kept |
| Oscillators.RawWave | Oscillator.cpp:142-172 | sine passes the sine value; square is 1 exactly when sine > 0 and -1 exactly when sine <= 0; saw, triangle and noise pass their formula's value; any other wave code gives 0 |
| Oscillators.Apply | Oscillator.cpp:13-101 | one setter call as the record sees it: only SetVolume and SetParameters change the volume; after SetVolume or ResetAM the amplitude equals the volume; SetAM leaves a non-negative amplitude; only SetParameters changes the fine tune; no other call moves an octave out of [-4, 4] |
| Oscillators.Oscillator.constructor | Oscillator.h:21-36 | a fresh oscillator has wave sine, volume 1, amplitude equal to the volume, gains {0.5, 0.5, 0, 0}, frequency 440, octave 0, FM 0, and drone and LFO off |
| Oscillators.Oscillator.SetParameters | Oscillator.cpp:13-16 | the record becomes the given one |
| Oscillators.Oscillator.SetVolume | Oscillator.cpp:18-22 | volume and amplitude both become `v`; nothing else changes |
| Oscillators.Oscillator.SetChannelVolume | Oscillator.cpp:24-30 | for a channel up to 3, GetChannelVolume(ch) reads back `v`; every other channel reads back what it read before, and a channel above 3 changes nothing |
| Oscillators.Oscillator.SetChannelVolumes | Oscillator.cpp:32-36 | the copy loop leaves the gains equal to the first four given values and changes no other field |
| Oscillators.Oscillator.SetWave | Oscillator.cpp:38-41 | only the wave code changes |
| Oscillators.Oscillator.SetFrequency | Oscillator.cpp:43-46 | only the frequency changes |
| Oscillators.Oscillator.SetFineTune | Oscillator.cpp:48-50 | the object is unchanged |
| Oscillators.Oscillator.SetDrone | Oscillator.cpp:52-55 | only the drone flag changes |
| Oscillators.Oscillator.SetFM | Oscillator.cpp:57-60 | FM becomes `d` and nothing else changes |
| Oscillators.Oscillator.AddFM | Oscillator.cpp:62-65 | FM becomes the old FM plus `d` and nothing else changes |
| Oscillators.Oscillator.SetAM | Oscillator.cpp:67-73 | the amplitude is overwritten by the clamped modulation, so it is never negative |
| Oscillators.Oscillator.AddAM | Oscillator.cpp:75-81 | the amplitude is multiplied by the clamped modulation, so a non-negative amplitude stays non-negative |
| Oscillators.Oscillator.ResetAM | Oscillator.cpp:83-86 | the amplitude equals the volume again |
| Oscillators.Oscillator.SetLFO | Oscillator.cpp:88-91 | only the LFO flag changes |
| Oscillators.Oscillator.SetOctave | Oscillator.cpp:93-101 | only the octave changes, to the clamped value, which lies in [-4, 4] |
| Oscillators.Oscillator.GetChannelVolume | Oscillator.cpp:108-114 | gives 0 for a channel above 3 and the stored gain otherwise |
| Oscillators.Oscillator.Play | Oscillator.cpp:174-180 | mono and channels above 3 give raw × amplitude; channels 0..3 give raw × the channel's gain × amplitude |
| Oscillators.RunKeepsAmplitudeSign | Oscillator.cpp:18-101 | no sequence of setter calls other than SetParameters makes the amplitude negative while the volume is non-negative |
| Oscillators.RunKeepsVolume | Oscillator.cpp:18-101 | calls other than SetVolume and SetParameters never change the volume |
| Oscillators.ResetRestoresVolume | Oscillator.cpp:18-86 | SetVolume(v), then any calls that keep the volume, then ResetAM leaves the amplitude at `v` |
| Oscillators.RunAppend | Oscillator.cpp:13-101 | replaying two runs of calls one after the other equals replaying their concatenation |
| Oscillators.FmAccumulates | Oscillator.cpp:62-65 | a run of AddFM calls adds the sum of their arguments to FM and changes nothing else |
| Oscillators.SetFmOverwrites | Oscillator.cpp:57-65 | SetFM(d) then AddFM calls leaves FM at `d` plus their sum, whatever FM was before |
| Oscillators.AmAccumulates | Oscillator.cpp:75-81 | a run of AddAM calls scales the amplitude by the product of the clamped modulations and changes nothing else |
| Oscillators.ResetThenAddAm | Oscillator.cpp:75-86 | ResetAM then a run of AddAM calls leaves the amplitude at volume × the product of the clamped modulations |
| Oscillators.SetOctaveOnlyOctave | Oscillator.cpp:48-101 | SetOctave changes only the octave, and SetFineTune changes nothing |
| Oscillators.SquareMagnitude | Oscillator.cpp:147-154 | a square wave plays ± the channel's gain (1 for mono) × amplitude, with + exactly when sine > 0 |
| Oscillators.PlayBounded | Oscillator.cpp:136-181 | for sine and square waves with gains in [0, 1] and a non-negative amplitude, a sine value in [-1, 1] plays inside [-amplitude, amplitude] |
| Oscillators.FreshChannels | Oscillator.h:25 | with the default gains, channels 2 and 3 are silent and channels 0 and 1 play half the sine value |
| Envelopes.Sample | Envelope.cpp:32-90 | an inactive envelope reads 0 and keeps its state; otherwise a read either keeps the state or reads 0 and only clears the active flag |
| Envelopes.Start | Envelope.cpp:92-97 | the envelope becomes active and not released, with the trigger start at `now`; nothing else changes |
| Envelopes.Stop | Envelope.cpp:99-105 | the captured amplitude is exactly what a read at `now` reports, the active flag is what that read leaves, the end time is `now`, the envelope is released, and the parameters and start time are kept |
| Envelopes.Envelope.constructor | Envelope.h:5-11 | a fresh envelope has the default parameters (1, 10, 0.8, 100), is inactive and not released, and has a captured amplitude of 0 |
| Envelopes.Envelope.SetAttack | Envelope.cpp:12-15 | only the attack changes |
| Envelopes.Envelope.SetDecay | Envelope.cpp:17-20 | only the decay changes |
| Envelopes.Envelope.SetSustain | Envelope.cpp:22-25 | only the sustain level changes |
| Envelopes.Envelope.SetRelease | Envelope.cpp:27-30 | only the release changes |
| Envelopes.Envelope.GetAmplitude | Envelope.cpp:32-90 | the amplitude returned and the new state are those of Sample at `now` |
| Envelopes.Envelope.StartEnvelope | Envelope.cpp:92-97 | the new state is Start of the old one |
| Envelopes.Envelope.StopEnvelope | Envelope.cpp:99-105 | the new state is Stop of the old one |
| Envelopes.FreshIsSilent | Envelope.cpp:34-35 | a fresh envelope reads 0 at any time and is inactive, not released, with captured amplitude 0 |
| Envelopes.AttackRamp | Envelope.cpp:43-48 | during the attack the amplitude is elapsed/attack, lies in [0, 1], equals 1 at the end of the attack, and the state is kept |
| Envelopes.AttackIncreases | Envelope.cpp:43-48 | the attack ramp strictly increases |
| Envelopes.DecayRamp | Envelope.cpp:49-56 | with sustain ≠ 0, during the decay the amplitude is 1 − k(1 − sustain) with k in (0, 1]; it reaches the sustain level at the end of the decay and, for a sustain level in [0, 1], lies between the sustain level and 1 |
| Envelopes.SustainHolds | Envelope.cpp:57-58 | with sustain ≠ 0, after the decay the amplitude holds at the sustain level |
| Envelopes.ReleaseRamp | Envelope.cpp:64-71 | after a stop, the amplitude is captured × (1 − (now − end)/release); it equals the captured level at the stop, 0 at the end of the window, and stays between 0 and a non-negative captured level |
| Envelopes.ReleaseDecreases | Envelope.cpp:64-71 | with a positive captured level the release ramp strictly decreases |
| Envelopes.ReleaseExpires | Envelope.cpp:72-73 | past the release window a read returns 0 and clears the active flag |
| Envelopes.SustainZeroAsWritten | Envelope.cpp:75-85 | with sustain 0, not released and past the attack, the amplitude is 1 − (elapsed + attack)/release while elapsed − attack ≤ release; after that a read returns 0 and deactivates |
| Envelopes.SustainZeroGoesNegative | Envelope.cpp:77-82 | attack 1, release 100, sustain 0, read 101 ticks after the start: the amplitude is −0.02 and the envelope is still active |
| Envelopes.SustainZeroIntended | Envelope.cpp:75-85 | with the release ramp measured from the end of the attack, the sustain-0 amplitude is 1 where the attack ends, stays in [0, 1], reaches 0 at the end of the release window and then deactivates |
| Envelopes.SampleIntendedAgrees | Envelope.cpp:32-90 | the corrected read equals the source's read whenever sustain ≠ 0, the envelope is released, or it is inactive |
| Envelopes.StopThenRelease | Envelope.cpp:64-71 | stopping a sounding envelope at t0 and reading at t within the release window gives the captured level × (1 − (t − t0)/release) |
| Envelopes.SilentUntilStart | Envelope.cpp:34-35 | once inactive, an envelope stays inactive and reads 0 through any reads, stops and parameter changes until the next start |
| MiscDsp.Combine | MiscDSP.h:14-84 | the output (x ± stored) / 2 lies between the input and the signed stored sample, and samples in [−1, 1] give an output in [−1, 1] |
| MiscDsp.LastSampleStep | MiscDSP.h:14-40 | output = (x ± stored[slot]) / 2; afterwards the slot holds `x`, the other slot is unchanged, and the slot index toggles within {0, 1} |
| MiscDsp.LastSampleRun | MiscDSP.h:14-40 | a stream of n inputs gives n outputs and leaves a valid state |
| MiscDsp.LastSampleStateFromInit | MiscDSP.h:16-23 | from the zeroed start, after n inputs the slot index is n mod 2 and the slots hold the last two inputs (0 before any) |
| MiscDsp.LastSampleRunPrefix | MiscDSP.h:14-40 | the outputs for a prefix of a stream are the prefix of the outputs for the whole stream |
| MiscDsp.LastSampleRunFromInit | MiscDSP.h:14-40 | output n of a stream from the zeroed start is (x[n] ± x[n−2]) / 2, with 0 for a missing earlier input |
| MiscDsp.LastSampleFilter.LowPass | MiscDSP.h:14-17 | a fresh low-pass filter adds, with both slots 0 and slot index 0 |
| MiscDsp.LastSampleFilter.HighPass | MiscDSP.h:28-31 | a fresh high-pass filter subtracts, with both slots 0 and slot index 0 |
| MiscDsp.LastSampleFilter.Filter | MiscDSP.h:14-40 | the output and the new slots and index are those of LastSampleStep |
| MiscDsp.DelayLineStep | MiscDSP.h:42-84 | while the current deque holds fewer than 2 samples, the input is pushed to its front and returned, and the index stays; with 2 samples the output is (x ± the back) / 2, the deque becomes [x, old front] and the index toggles; the other deque is kept, and no deque exceeds 2 samples |
| MiscDsp.DelayLineRun | MiscDSP.h:42-84 | a stream of n inputs gives n outputs and leaves a valid state |
| MiscDsp.FullStaysFull | MiscDSP.h:54-61 | once both deques hold 2 samples, they keep 2 samples forever |
| MiscDsp.DelayLineRunSnoc | MiscDSP.h:42-84 | running a stream and then one more input equals running the longer stream |
| MiscDsp.WarmUpSlot0 | MiscDSP.h:47-52 | the first two inputs go to deque 0 and come out unchanged |
| MiscDsp.WarmUpFirstOutput | MiscDSP.h:54-61 | the third input is combined with the first, and the index moves to 1 |
| MiscDsp.WarmUpSlot1 | MiscDSP.h:47-52 | the fourth input starts filling deque 1 and comes out unchanged |
| MiscDsp.DelayLineWarmUp | MiscDSP.h:42-84 | from the start, five inputs give outputs x0, x1, (x2 ± x0)/2, x3, x4, leave both deques full and the index at 1 |
| MiscDsp.DelayLineRunFromInit | MiscDSP.h:42-84 | for any input stream from the empty start: calls 0, 1, 3 and 4 pass their input through; calls 2, 5, 6, 7 and 8 combine their input with inputs 0, 3, 1, 4 and 2; from call 9 on, output n combines x[n] with x[n−4]; the final deques and index are given in closed form |
| MiscDsp.DelayLineMixesChannels | MiscDSP.h:47-52 | outputs 6 and 7 combine inputs of different parity (6 with 1, 7 with 4), so on an interleaved stereo stream they mix the channels; with inputs 0, 1, 0, 1, … the notch gives 0.5 at call 6 where the corrected step gives 0 |
| MiscDsp.DelayLineStepIntended | MiscDSP.h:42-84 | the corrected step: the index moves on every call; a filling deque takes the input at its front and passes it through; with a full deque it is the step as written |
| MiscDsp.DelayLineRunIntendedFromInit | MiscDSP.h:42-84 | with the corrected step, for any input stream, the first four inputs pass through and output n ≥ 4 combines x[n] with x[n−4], the same channel two frames back on an interleaved stereo stream |
| MiscDsp.DelayLineIntendedAgrees | MiscDSP.h:42-84 | from call 9 on, the step as written and the corrected step give the same output and reach the same state |
| MiscDsp.DelayLineFilter.Notch | MiscDSP.h:42-45 | a fresh notch filter adds, with both deques empty and index 0 |
| MiscDsp.DelayLineFilter.BandPass | MiscDSP.h:64-67 | a fresh band-pass filter subtracts, with both deques empty and index 0 |
| MiscDsp.DelayLineFilter.Filter | MiscDSP.h:42-84 | the output and the new deques and index are those of DelayLineStep |
| MiscDsp.Pow2 | MiscDSP.h:93 | the scale 2^(bits−1) is positive for every integer bit depth |
| MiscDsp.Ceil | MiscDSP.h:95 | the ceiling is the integer c with y ≤ c < y + 1 |
| MiscDsp.RoundUp | MiscDSP.h:95 | the result is rounded up to the grid: times the scale it is the ceiling of x times the scale, and it lies in [x, x + 1/scale) |
| MiscDsp.BitCrush | MiscDSP.h:91-96 | the result is an integer multiple of 1/2^(bits−1), not below the input and less than one step above it |
| MiscDsp.RoundUpIdempotent | MiscDSP.h:95 | rounding up to the grid twice is rounding once |
| MiscDsp.BitCrushIdempotent | MiscDSP.h:91-96 | crushing twice at the same depth is crushing once |
| Audio.Clip | AudioInterface.cpp:182-188 | for m ≥ 0 the result lies in [−m, m]; an input in range is returned; above m gives m and below −m gives −m; for m < 0 the branch on the sign of x is kept |
| Audio.ClipIdempotent | AudioInterface.cpp:182-188 | clipping twice is clipping once |
| Audio.ClipMonotone | AudioInterface.cpp:182-188 | clipping keeps the order of samples |
| Audio.Truncate | AudioInterface.cpp:244 | the cast to `short` truncates toward zero |
| Audio.Quantize | AudioInterface.cpp:241-250 | a generated sample becomes a 16-bit value in [−32767, 32767] with the sign of the input |
| Audio.QuantizeSaturates | AudioInterface.cpp:241-250 | values at or beyond ±1 give ±32767; values in range give the truncated product with 32767 |
| Audio.IndexOf | AudioInterface.cpp:33-39 | a device index found by the lookup is a valid index into the device list |
| Audio.IndexOfFirst | AudioInterface.cpp:33-39 | the lookup gives the index of the first device with that name, and gives None exactly when no device has it |
| Audio.BlocksDisjoint | AudioInterface.cpp:72-76 | an earlier block ends at or before a later block starts |
| Audio.BlocksTile | AudioInterface.cpp:55-76 | every buffer offset lies in the block named by its offset divided by the block size, and that block exists |
| Audio.FrameOffsetIsProduct | AudioInterface.cpp:239 | stepping by `channels` per frame puts frame f at offset f × channels |
| Audio.FrameTimeIsLinear | AudioInterface.cpp:260 | adding one step per frame puts frame f at time t0 + f × step |
| Audio.Source | AudioInterface.cpp:241-250 | without a user function the sample is 0, the base ProcessSample (AudioInterface.cpp:136-139); with one, it is the user function's value at t for channel n passed as a byte (n mod 256) |
| Audio.SourceChannelIsByte | AudioInterface.cpp:241-250 | channels 256 apart get the same sample, because the channel is passed as a byte |
| Audio.LinkedHeader | AudioInterface.cpp:72-76 | header i is 2 bytes per sample of one block long, and its data ends exactly where block i + 1 starts |
| Audio.TimeStep | AudioInterface.cpp:211 | the step between frames is positive, and sampleRate steps make one second |
| Audio.AudioInterface.constructor | AudioInterface.cpp:10-13 | the constructor calls Create and drops its result: the format is recorded with all blocks free and block 0 current, no user function is set, and the device is the looked-up index; the sink is ready exactly when the name is absent or the open succeeds; a ready sink keeps the invariant with a zeroed buffer at time 0, and a sink that is not ready has nothing allocated; a generation thread is running exactly when the sink is ready |
| Audio.AudioInterface.Create | AudioInterface.cpp:20-88 | records the format, with all blocks free and block 0 current; the device is the first index with the requested name; the result is true exactly when the name is absent or the open succeeds; on failure nothing is allocated, the sink is not ready and the time is kept; on success the buffer is zeroed, every header is linked to its block, the sink is ready, a generation thread is started, and the time is 0, the value that thread sets first (AudioInterface.cpp:210); a successful Create needs any earlier thread joined |
| Audio.AudioInterface.Reset | AudioInterface.cpp:22-30 | the field initialisation records the format, marks the sink not ready, makes every block free and block 0 current, and leaves nothing allocated |
| Audio.AudioInterface.Allocate | AudioInterface.cpp:55-76 | a fresh zeroed buffer of count × samples × channels, and fresh headers each linked to its block; no other field changes |
| Audio.AudioInterface.Destroy | AudioInterface.cpp:90-105 | both pointers are null afterwards, a second call changes nothing, and no other field changes |
| Audio.AudioInterface.Stop | AudioInterface.cpp:107-134 | the sink is not ready; with no generation thread to join (after a failed Create or a second Stop) the join throws and nothing else changes; otherwise the thread is joined and both pointers are null; in both cases the format, the block counters, the device, the user function and the time are kept |
| Audio.AudioInterface.Reopen | CfgWindow.cpp:36-46 | a device switch, Stop then Create; the user function set before the switch is kept in every case. When the sink has no generation thread (its open had failed), Stop throws, Create is not reached, and only the ready flag changes. Otherwise the new format is recorded with every block free and block 0 current, and the device is the looked-up index. The result is Create's: a failed open leaves nothing allocated and the time as it was. A successful one leaves the sink ready with a running thread, the invariant kept, a fresh zeroed buffer and time 0 |
| Audio.AudioInterface.SetUserFunction | AudioInterface.cpp:172-175 | the user function is set and nothing else changes |
| Audio.AudioInterface.WaveOutProc | AudioInterface.cpp:191-199 | WOM_DONE gives one block back (free + 1, with the device − 1, the total kept); any other message changes nothing; the invariant is kept |
| Audio.AudioInterface.FillBlock | AudioInterface.cpp:217-267 | keeps the invariant; free − 1; current block becomes (k + 1) mod count, below count; the time advances one step per frame; only block k's samples change; sample k·S·C + f·C + n holds the quantized sample function at t0 + f steps for channel n |
| Audio.AudioInterface.WriteBlock | AudioInterface.cpp:237-261 | the frame loop writes only the block starting at `base`, stores channel n of frame f at base + f·C + n as the quantized sample at frame f's time, and advances the time once per frame |
| Audio.AllocateBlocks | AudioInterface.cpp:55-60 | a fresh buffer of count × samples × channels zeros |
| Audio.LinkHeaders | AudioInterface.cpp:62-76 | header i has length samples × 2 × channels bytes and points at sample offset i × samples × channels |
| Audio.GenerateFrame | AudioInterface.cpp:241-250 | channel n of the frame is the quantized sample function at time t for channel n (the user function when set, otherwise the silent base) |
| Audio.CopyFrame | AudioInterface.cpp:254-258 | the frame is stored at the given offset and nothing else in the buffer changes |

## Left out

- The waveform mathematics of `Play` (`sin`, `fmod` for saw, `asin` for triangle, `rand()` for noise) is transcendental floating point or a library random generator. `Play` takes the sine value and the saw/triangle/noise value as inputs.
- The frequency argument of `Play` is left out for the same reason: it enters only the waveform formulas.
- `SoftClip` (`atan`) and `Helpers.h` (`LinToLog`/`LogToLin`, using `exp`/`log`) are transcendental floating point.
- Oscillators.Oscillator.Play: requires a channel of at least −1. A lower channel indexes before `dChannelVolume` in the source, which is undefined behaviour.
- `GetFineTune` is declared in Oscillator.h but never defined, so it has no model. `SetFineTune` stores nothing, and its argument is ignored.
- The getters `GetVolume`, `GetFrequency`, `GetDrone`, `IsLFO` and `GetOctaveMod` only read a field. They are functions without contracts.
- The envelope's conversion from milliseconds to clock ticks via `CLOCKS_PER_SEC`, and the `std::clock()` reads, are left out. Durations are positive tick counts, and the clock reading is a parameter `now`. The defaults assume one tick per millisecond.
- Durations are positive tick counts, which rules out zero durations (below one tick) by choice. In the source a zero duration divides in only two places. A zero attack divides on a read at or before the trigger tick (Envelope.cpp:45), and a zero release on a released read at or before the stop tick (Envelope.cpp:68). Both are `double` divisions that give NaN or −infinity; nothing faults. A zero decay never divides: the decay branch is reached only after the attack window, where elapsed − attack > 0, so the envelope goes straight to the sustain level (Envelope.cpp:51-58).
- Envelopes.Envelope.StopEnvelope: uses one clock reading for both the captured amplitude and the end time, where the source reads the clock twice.
- Envelope trigger times are uninitialised in the source until the first start or stop. The model starts them at 0, and no read depends on them before they are set.
- Floating-point rounding is not modelled. All amplitudes, gains, filter values and times are exact reals.
- MiscDsp.BitCrush: takes an integer bit depth only, where the source accepts any `double`.
- The filters' function-local static state is modelled as one object per filter. The source shares one such state between all callers of each function.
- The worker thread, the condition-variable wait and notify, the atomics and the join in `Stop` are concurrency. `FillBlock` is one iteration of the loop, entered with a block free. Of the thread, only whether it can be joined is modelled (`threadJoinable`), so that `Stop` can throw where `join` throws `std::system_error`.
- Audio.AudioInterface.Stop: leaves out `waveOutReset` (AudioInterface.cpp:111). On an open device it hands every queued block back through `waveOutProc`, so in the program `nBlockFree` ends at `nBlockCount`. The model keeps the block counters as they were; the next `Create` resets them in both.
- Audio.AudioInterface.Create: requires that a successful `Create` finds no unjoined generation thread. Assigning a new thread over a joinable one (AudioInterface.cpp:81) ends the program with `std::terminate`. Every call in the program comes after the constructor or after `Stop`, so the requirement holds there.
- Audio.AudioInterface.WaveOutProc: requires a block to be with the device when `WOM_DONE` arrives, which the device guarantees.
- All winmm calls are device I/O. These are `waveOutOpen`, `waveOutPrepareHeader`/`Unprepare`/`Write`, `waveOutReset`, `waveOutClose`, `GetDevices` and `GetActiveDevice`. The device list and the outcome of opening are inputs.
- The `WHDR_PREPARED` flag handling and the header fields other than length and data offset are part of that device protocol, so they are left out too.
- Audio.AudioInterface.FillBlock: requires a sample rate above 0. The source would divide by zero and step time by infinity.
- Audio.AudioInterface.FillBlock: times are exact reals defined by repeated addition (`FrameTime`). Floating-point accumulation error is not modelled.
- The buffer size `nBlockCount * nChannels * nBlockSamples` is computed in 32-bit unsigned arithmetic in the source and could wrap around. The model uses unbounded integers.
- The allocation-failure branches of `Create` are left out, because `new` never returns null in the model.
- The `nPreviousSample` copy in `MainThread` is a dead store, so it is left out.
- `userFunction` is uninitialised in the C++ constructor. The model starts it as None, the silent `ProcessSample`.
- `ProcessSample` is virtual. Only the base version, which returns 0, is modelled.
- The declarations in AudioInterface.h (`SetUserFunction` and `ProcessSample` with one parameter) do not match the two-parameter definitions in AudioInterface.cpp. The model follows the definitions.
- MIDI input (MidiInterface) and the wxWidgets user interface (Main.cpp, CfgWindow) are device I/O and user interface. Only the device switch of CfgWindow (`Stop`, then `Create`) is modelled, as `Reopen`.

## Findings

| source | as written | input that shows it | evidently intended | confidence | as-written member | corrected member |
|---|---|---|---|---|---|---|
| Envelope.cpp:77-82 | with sustain 0 and not released, the ramp after the attack uses k = (elapsed + attack) / release, while the guard measures elapsed − attack | attack 1 tick, release 100 ticks, sustain 0, read 101 ticks after the start: the guard 100 ≤ 100 passes, k = 1.02, and the amplitude is −0.02 while the envelope stays active | k = (elapsed − attack) / release: the ramp runs from 1 at the end of the attack down to exactly 0 at the end of the window and never goes negative | high; not executed | Envelopes.SustainZeroGoesNegative | Envelopes.SustainZeroIntended |
| MiscDSP.h:47-52 | `SimpleNotch` and `SimpleBandPass` push into a filling deque and return without moving the slot index, so the first two inputs both go to slot 0 and inputs 3 and 4 both to slot 1 | an interleaved stereo stream with the left channel silent and the right at 1 (inputs 0, 1, 0, 1, 0, 1, 0, 1): notch output 6, a left sample, is (0 + 1) / 2 = 0.5 | the slot index moves on every call, as in `SimpleLowPass`, so each slot holds one channel and output n ≥ 4 is (x[n] ± x[n−4]) / 2 | medium; not executed | MiscDsp.DelayLineMixesChannels | MiscDsp.DelayLineRunIntendedFromInit |

`MiscDsp.DelayLineStepIntended` is the corrected notch/band-pass step. `MiscDsp.DelayLineIntendedAgrees` shows that it differs from the source only in the first nine calls. The class `MiscDsp.DelayLineFilter` keeps the source's step.

`Envelopes.SampleIntended` is the corrected read. `Envelopes.SampleIntendedAgrees` shows that it differs from the source only in the sustain-0 branch. The class `Envelopes.Envelope` keeps the source's behaviour, so that its methods describe the program as it runs.
