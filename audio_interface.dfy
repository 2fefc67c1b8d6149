/** The block-buffer bookkeeping of the audio sink (AudioInterface.cpp).

    The sink owns one buffer of `blockCount` blocks, each `blockSamples`
    interleaved frames of `channels` 16-bit samples, and one wave header
    per block pointing into it.  A generation loop fills the current block
    from a sample function, hands it to the device and moves round-robin
    to the next block; the device's completion callback gives blocks back.
    The device itself, the worker thread and its condition variable are not
    part of this model: the device list and the outcome of opening the
    device are inputs, and one iteration of the loop is one method call
    made while a block is free. */
module Audio {

  datatype Option<T> = None | Some(value: T)

  // ---------------------------------------------------------------------
  // Clip and the conversion to 16-bit samples.

  /** `Clip`: a non-negative sample is limited from above by `m`, a
      negative one from below by `-m`.  For `m >= 0` this is the point of
      [-m, m] nearest to `x`. */
  function Clip(x: real, m: real): (r: real)
    ensures m >= 0.0 ==> -m <= r <= m
    ensures -m <= x <= m ==> r == x
    ensures m >= 0.0 && x > m ==> r == m
    ensures m >= 0.0 && x < -m ==> r == -m
    ensures m < 0.0 ==> r == (if x >= 0.0 then m else -m)
  {
    if x >= 0.0 then (if x <= m then x else m)
    else (if x >= -m then x else -m)
  }

  /** Clipping twice is clipping once. */
  lemma ClipIdempotent(x: real, m: real)
    requires m >= 0.0
    ensures Clip(Clip(x, m), m) == Clip(x, m)
  {
  }

  /** Clipping keeps the order of samples. */
  lemma ClipMonotone(x: real, y: real, m: real)
    requires m >= 0.0 && x <= y
    ensures Clip(x, m) <= Clip(y, m)
  {
  }

  /** `SHRT_MAX`, the full-scale 16-bit sample. */
  const MaxSample := 32767

  /** A C cast from `double` to an integer type: truncation toward zero. */
  function Truncate(y: real): (r: int)
    ensures y >= 0.0 ==> r as real <= y < r as real + 1.0
    ensures y < 0.0 ==> r as real - 1.0 < y <= r as real
  {
    if y >= 0.0 then y.Floor else -((-y).Floor)
  }

  /** One generated sample, clipped to [-1, 1], scaled to full scale and
      cast to `short`. */
  function Quantize(v: real): (r: int)
    ensures -MaxSample <= r <= MaxSample
    ensures v >= 0.0 ==> r >= 0
    ensures v <= 0.0 ==> r <= 0
  {
    var y := Clip(v, 1.0) * MaxSample as real;
    assert -MaxSample as real <= y <= MaxSample as real;
    Truncate(y)
  }

  /** Samples at or beyond full scale saturate to the extreme 16-bit
      values, and an in-range sample is truncated toward zero. */
  lemma QuantizeSaturates(v: real)
    ensures v >= 1.0 ==> Quantize(v) == MaxSample
    ensures v <= -1.0 ==> Quantize(v) == -MaxSample
    ensures -1.0 <= v <= 1.0 ==> Quantize(v) == Truncate(v * MaxSample as real)
  {
    if v >= 1.0 {
      assert Clip(v, 1.0) == 1.0;
      assert Truncate(MaxSample as real) == MaxSample;
    } else if v <= -1.0 {
      assert Clip(v, 1.0) == -1.0;
      assert Truncate(-MaxSample as real) == -MaxSample;
    }
  }

  // ---------------------------------------------------------------------
  // The device lookup.

  /** The index of the first device named `name`, as `find` followed by
      `distance`, or `None` when no device has that name. */
  function IndexOf(devices: seq<string>, name: string): (r: Option<nat>)
    ensures r.Some? ==> r.value < |devices|
    decreases |devices|
  {
    if devices == [] then None
    else if devices[0] == name then Some(0)
    else
      match IndexOf(devices[1..], name)
      case None => None
      case Some(i) => Some(i + 1)
  }

  /** The lookup finds the first device with that name, and finds none
      exactly when no device has it. */
  lemma {:induction false} IndexOfFirst(devices: seq<string>, name: string)
    ensures var r := IndexOf(devices, name);
      && (r.Some? ==> devices[r.value] == name)
      && (r.Some? ==> forall j :: 0 <= j < r.value ==> devices[j] != name)
      && (r.None? <==> name !in devices)
    decreases |devices|
  {
    if devices != [] && devices[0] != name {
      IndexOfFirst(devices[1..], name);
      assert devices == [devices[0]] + devices[1..];
    }
  }

  // ---------------------------------------------------------------------
  // The buffer layout.

  /** `sizeof(short)`. */
  const SampleBytes := 2

  /** The fields of a `WAVEHDR` this model uses: the length of the data in
      bytes and where it starts, as an offset in samples into the buffer. */
  datatype WaveHeader = WaveHeader(bufferLength: nat, dataOffset: nat)

  /** The sample offset of block `i`. */
  function BlockStart(i: nat, blockSamples: nat, channels: nat): nat {
    i * (blockSamples * channels)
  }

  /** Header `i` as `Create` links it: its own block, `blockSamples *
      channels` samples long. */
  function LinkedHeader(i: nat, blockSamples: nat, channels: nat): (h: WaveHeader)
    ensures h.bufferLength == 2 * (blockSamples * channels)
    ensures h.dataOffset + blockSamples * channels == BlockStart(i + 1, blockSamples, channels)
  {
    WaveHeader(blockSamples * SampleBytes * channels, BlockStart(i, blockSamples, channels))
  }

  /** A block of the buffer ends inside the buffer. */
  lemma BlockInBuffer(k: nat, blockCount: nat, size: nat)
    requires k < blockCount
    ensures k * size + size <= blockCount * size
  {
    var d: nat := blockCount - k - 1;
    assert blockCount * size == k * size + size + d * size;
  }

  /** Later blocks start after earlier ones end, so no two blocks share a
      sample. */
  lemma BlocksDisjoint(i: nat, j: nat, blockSamples: nat, channels: nat)
    requires i < j
    ensures BlockStart(i, blockSamples, channels) + blockSamples * channels
         <= BlockStart(j, blockSamples, channels)
  {
    BlockInBuffer(i, j, blockSamples * channels);
  }

  /** Every sample of the buffer lies in the block its offset divided by
      the block size names, and that block exists: the blocks tile the
      buffer. */
  lemma BlocksTile(x: nat, blockCount: nat, blockSamples: nat, channels: nat)
    requires x < blockCount * (blockSamples * channels)
    ensures blockSamples * channels > 0
    ensures var k := x / (blockSamples * channels);
      && k < blockCount
      && BlockStart(k, blockSamples, channels) <= x
      && x < BlockStart(k, blockSamples, channels) + blockSamples * channels
  {
    var size := blockSamples * channels;
    var k := x / size;
    if k >= blockCount {
      BlockInBuffer(blockCount - 1, k, size);
    }
  }

  // ---------------------------------------------------------------------
  // The samples of one block.

  /** `WOM_DONE`, the message the device sends when a block has played. */
  const WomDone := 0x3BD

  /** The sample function: the user function when one is set, otherwise
      the base `ProcessSample`, which is silent.  The channel is passed as
      a `byte`. */
  function Source(userFunction: Option<(real, int) -> real>, t: real, n: nat): (r: real)
    ensures userFunction.None? ==> r == 0.0
    ensures userFunction.Some? ==> r == userFunction.value(t, n % 256)
  {
    match userFunction
    case None => 0.0
    case Some(f) => f(t, n % 256)
  }

  /** The channel reaches the sample function as a `byte`, so channels
      256 apart get the same sample. */
  lemma SourceChannelIsByte(userFunction: Option<(real, int) -> real>, t: real, n: nat)
    ensures Source(userFunction, t, n + 256) == Source(userFunction, t, n)
  {
  }

  /** The time between two frames. */
  function TimeStep(sampleRate: nat): (r: real)
    requires sampleRate > 0
    ensures r > 0.0 && r * sampleRate as real == 1.0
  {
    1.0 / sampleRate as real
  }

  /** The number of frames one fill writes: none when there are no
      channels, since the loop's bound `blockSamples * channels` is 0. */
  function FramesPerBlock(blockSamples: nat, channels: nat): nat {
    if channels == 0 then 0 else blockSamples
  }

  /** The offset of frame `f` in a block, as the loop reaches it: one
      step of `channels` samples per frame. */
  function FrameOffset(f: nat, channels: nat): nat {
    if f == 0 then 0 else FrameOffset(f - 1, channels) + channels
  }

  /** Frames are interleaved: frame `f` starts `f * channels` samples into
      the block. */
  lemma {:induction false} FrameOffsetIsProduct(f: nat, channels: nat)
    ensures FrameOffset(f, channels) == f * channels
  {
    if f > 0 {
      FrameOffsetIsProduct(f - 1, channels);
    }
  }

  /** Where channel `n` of frame `f` of the block starting at `base` is
      stored. */
  function SampleIndex(base: nat, f: nat, n: nat, channels: nat): nat {
    base + FrameOffset(f, channels) + n
  }

  /** The time of frame `f` of a block started at `t0`: one step added per
      frame. */
  function FrameTime(t0: real, step: real, f: nat): real {
    if f == 0 then t0 else FrameTime(t0, step, f - 1) + step
  }

  /** The steps add up: frame `f` plays at `t0 + f * step`. */
  lemma {:induction false} FrameTimeIsLinear(t0: real, step: real, f: nat)
    ensures FrameTime(t0, step, f) == t0 + f as real * step
  {
    if f > 0 {
      FrameTimeIsLinear(t0, step, f - 1);
    }
  }

  /** A loop still running on `f * channels < blockSamples * channels`
      has a whole frame left to write. */
  lemma FrameFits(f: nat, blockSamples: nat, channels: nat)
    requires f <= FramesPerBlock(blockSamples, channels)
    requires FrameOffset(f, channels) < blockSamples * channels
    ensures channels > 0 && f < blockSamples
    ensures FrameOffset(f, channels) + channels <= blockSamples * channels
  {
    FrameOffsetIsProduct(f, channels);
    FrameInBlock(f, channels - 1, blockSamples, channels);
  }

  /** A loop that stopped on `f * channels >= blockSamples * channels`
      without passing `blockSamples` frames ran exactly that many. */
  lemma FramesDone(f: nat, blockSamples: nat, channels: nat)
    requires f <= FramesPerBlock(blockSamples, channels)
    requires FrameOffset(f, channels) >= blockSamples * channels
    ensures f == FramesPerBlock(blockSamples, channels)
    ensures FrameOffset(f, channels) == blockSamples * channels
  {
    FrameOffsetIsProduct(f, channels);
  }

  /** Frame `f` of a block lies inside the block. */
  lemma FrameInBlock(f: nat, n: nat, blockSamples: nat, channels: nat)
    requires f < blockSamples && n < channels
    ensures f * channels + n < blockSamples * channels
  {
    assert blockSamples * channels - (f * channels + channels) == (blockSamples - f - 1) * channels;
  }

  // ---------------------------------------------------------------------
  // The sink.

  /** Whether `Create` gets past the device check: the name is absent, so
      there is nothing to open, or the open succeeds. */
  predicate Opens(devices: seq<string>, outputDevice: string, openOk: bool) {
    IndexOf(devices, outputDevice).None? || openOk
  }

  class AudioInterface {
    var sampleRate: nat
    var channels: nat
    var blockCount: nat
    var blockSamples: nat
    var blockFree: nat
    var blockCurrent: nat
    var blockMemory: array?<int>
    var waveHeaders: array?<WaveHeader>
    /** The index passed to `waveOutOpen`. */
    var device: Option<nat>
    var ready: bool
    var globalTime: real
    var userFunction: Option<(real, int) -> real>
    /** Blocks handed to the device and not yet given back. */
    ghost var inFlight: nat
    /** Whether `audioThread` holds a generation thread not yet joined:
        started by a successful `Create`, joined by `Stop`. */
    var threadJoinable: bool

    /** The state `Create` sets up and every fill keeps: the buffer holds
        all blocks, each header is linked to its block, the current block
        exists, and every block is either free or with the device. */
    ghost predicate Valid()
      reads this, waveHeaders
    {
      && blockMemory != null && waveHeaders != null
      && blockMemory.Length == blockCount * (blockSamples * channels)
      && waveHeaders.Length == blockCount
      && (forall i :: 0 <= i < blockCount ==> waveHeaders[i] == LinkedHeader(i, blockSamples, channels))
      && (blockCount > 0 ==> blockCurrent < blockCount)
      && (blockCount == 0 ==> blockCurrent == 0)
      && blockFree + inFlight == blockCount
    }

    /** The constructor opens the sink with `Create` and drops its result;
        the caller learns the outcome from `ready` (`GetActive`).  With no
        user function set yet, the sink plays `ProcessSample`. */
    constructor (devices: seq<string>, outputDevice: string, rate: nat, ch: nat,
                 blocks: nat, samples: nat, openOk: bool)
      ensures sampleRate == rate && channels == ch
      ensures blockCount == blocks && blockSamples == samples
      ensures blockFree == blocks && blockCurrent == 0 && inFlight == 0
      ensures userFunction == None && device == IndexOf(devices, outputDevice)
      ensures ready <==> Opens(devices, outputDevice, openOk)
      ensures threadJoinable == ready
      ensures !ready ==> blockMemory == null && waveHeaders == null
      ensures ready ==> Valid() && fresh(blockMemory) && fresh(waveHeaders)
      ensures ready ==> globalTime == 0.0
      ensures ready ==> forall j :: 0 <= j < blockMemory.Length ==> blockMemory[j] == 0
    {
      userFunction := None;
      device := None;
      threadJoinable := false;
      new;
      var ok := Create(devices, outputDevice, rate, ch, blocks, samples, openOk);
    }

    /** `Create`: records the format, looks the device up by name and, when
        it is present, opens it (`openOk` is the outcome).  A failed open
        returns false with nothing allocated.  Otherwise, also when no
        device has that name, it allocates a zeroed buffer and the headers,
        links each header to its block, marks the sink ready, starts
        generation at time 0 and returns true.  Starting the generation
        thread over one that was never joined ends the program, so a
        successful `Create` needs the previous thread joined by `Stop`. */
    method Create(devices: seq<string>, outputDevice: string, rate: nat, ch: nat,
                  blocks: nat, samples: nat, openOk: bool) returns (ok: bool)
      requires threadJoinable ==> !Opens(devices, outputDevice, openOk)
      modifies this
      ensures sampleRate == rate && channels == ch
      ensures blockCount == blocks && blockSamples == samples
      ensures blockFree == blocks && blockCurrent == 0 && inFlight == 0
      ensures userFunction == old(userFunction)
      ensures device == (if IndexOf(devices, outputDevice).Some? then IndexOf(devices, outputDevice) else old(device))
      ensures ok <==> Opens(devices, outputDevice, openOk)
      ensures !ok ==> !ready && blockMemory == null && waveHeaders == null
      ensures ok ==> ready && Valid() && fresh(blockMemory) && fresh(waveHeaders)
      ensures ok ==> globalTime == 0.0
      ensures !ok ==> globalTime == old(globalTime)
      ensures threadJoinable == (old(threadJoinable) || ok)
      ensures ok ==> forall j :: 0 <= j < blockMemory.Length ==> blockMemory[j] == 0
    {
      Reset(rate, ch, blocks, samples);

      var d := IndexOf(devices, outputDevice);
      if d.Some? {
        device := d;
        if !openOk {
          return false;
        }
      }

      Allocate();
      ready := true;
      threadJoinable := true;
      globalTime := 0.0;
      return true;
    }

    /** The field initialisation at the start of `Create`: the format is
        recorded, every block is free, block 0 is current, and nothing is
        allocated. */
    method Reset(rate: nat, ch: nat, blocks: nat, samples: nat)
      modifies this
      ensures !ready && sampleRate == rate && channels == ch
      ensures blockCount == blocks && blockSamples == samples
      ensures blockFree == blocks && blockCurrent == 0 && inFlight == 0
      ensures blockMemory == null && waveHeaders == null
      ensures device == old(device) && userFunction == old(userFunction) && globalTime == old(globalTime)
      ensures threadJoinable == old(threadJoinable)
    {
      ready := false;
      sampleRate := rate;
      channels := ch;
      blockCount := blocks;
      blockSamples := samples;
      blockFree := blockCount;
      blockCurrent := 0;
      blockMemory := null;
      waveHeaders := null;
      inFlight := 0;
    }

    /** The allocation half of `Create`: a zeroed buffer of all blocks
        and one header per block, linked to it. */
    method Allocate()
      requires blockFree + inFlight == blockCount && blockCurrent == 0
      modifies this
      ensures Valid() && fresh(blockMemory) && fresh(waveHeaders)
      ensures forall j :: 0 <= j < blockMemory.Length ==> blockMemory[j] == 0
      ensures sampleRate == old(sampleRate) && channels == old(channels)
      ensures blockCount == old(blockCount) && blockSamples == old(blockSamples)
      ensures blockFree == old(blockFree) && blockCurrent == old(blockCurrent)
      ensures device == old(device) && ready == old(ready) && globalTime == old(globalTime)
      ensures userFunction == old(userFunction) && inFlight == old(inFlight)
      ensures threadJoinable == old(threadJoinable)
    {
      var memory := AllocateBlocks(blockCount, blockSamples, channels);
      blockMemory := memory;
      var headers := LinkHeaders(blockCount, blockSamples, channels);
      waveHeaders := headers;
    }

    /** `Destroy`: releases the buffer and the headers and clears both
        pointers, so a second call changes nothing. */
    method Destroy()
      modifies this
      ensures blockMemory == null && waveHeaders == null
      ensures old(blockMemory) == null && old(waveHeaders) == null ==> unchanged(this)
      ensures sampleRate == old(sampleRate) && channels == old(channels)
      ensures blockCount == old(blockCount) && blockSamples == old(blockSamples)
      ensures blockFree == old(blockFree) && blockCurrent == old(blockCurrent)
      ensures device == old(device) && ready == old(ready) && globalTime == old(globalTime)
      ensures userFunction == old(userFunction) && inFlight == old(inFlight)
      ensures threadJoinable == old(threadJoinable)
    {
      if blockMemory != null {
        blockMemory := null;
      }
      if waveHeaders != null {
        waveHeaders := null;
      }
    }

    /** `Stop`: clears the ready flag and joins the generation thread.
        With no thread to join (after a failed `Create`, or a second
        `Stop`) the join throws, and nothing but the ready flag has
        changed.  Otherwise it releases the buffers; the format, the
        device, the user function and the block counts are kept for a
        following `Create`. */
    method Stop() returns (threw: bool)
      modifies this
      ensures threw <==> !old(threadJoinable)
      ensures !ready && !threadJoinable
      ensures threw ==> blockMemory == old(blockMemory) && waveHeaders == old(waveHeaders)
      ensures !threw ==> blockMemory == null && waveHeaders == null
      ensures sampleRate == old(sampleRate) && channels == old(channels)
      ensures blockCount == old(blockCount) && blockSamples == old(blockSamples)
      ensures blockFree == old(blockFree) && blockCurrent == old(blockCurrent)
      ensures device == old(device) && globalTime == old(globalTime)
      ensures userFunction == old(userFunction) && inFlight == old(inFlight)
    {
      ready := false;
      threw := !threadJoinable;
      if threw {
        return;
      }
      threadJoinable := false;
      Destroy();
    }

    /** A switch of output device as the configuration window makes it:
        `Stop`, then `Create` with the new device's name.  When `Stop`
        throws, `Create` is never reached.  The user function set before
        the switch is the one the new sink plays. */
    method Reopen(devices: seq<string>, outputDevice: string, rate: nat, ch: nat,
                  blocks: nat, samples: nat, openOk: bool) returns (threw: bool, ok: bool)
      modifies this
      ensures threw <==> !old(threadJoinable)
      ensures userFunction == old(userFunction)
      // The join threw: only the ready flag was cleared.
      ensures threw ==> !ok && !ready && !threadJoinable
      ensures threw ==> blockMemory == old(blockMemory) && waveHeaders == old(waveHeaders)
      ensures threw ==> sampleRate == old(sampleRate) && channels == old(channels)
      ensures threw ==> blockCount == old(blockCount) && blockSamples == old(blockSamples)
      ensures threw ==> blockFree == old(blockFree) && blockCurrent == old(blockCurrent)
      ensures threw ==> device == old(device) && globalTime == old(globalTime) && inFlight == old(inFlight)
      // The sink was stopped and created again with the new format.
      ensures !threw ==> sampleRate == rate && channels == ch
      ensures !threw ==> blockCount == blocks && blockSamples == samples
      ensures !threw ==> blockFree == blocks && blockCurrent == 0 && inFlight == 0
      ensures !threw ==> device == (if IndexOf(devices, outputDevice).Some? then IndexOf(devices, outputDevice) else old(device))
      ensures !threw ==> (ok <==> Opens(devices, outputDevice, openOk))
      ensures !threw && !ok ==> !ready && !threadJoinable && blockMemory == null && waveHeaders == null
      ensures !threw && !ok ==> globalTime == old(globalTime)
      ensures ok ==> ready && threadJoinable && Valid() && globalTime == 0.0
      ensures ok ==> fresh(blockMemory) && fresh(waveHeaders)
      ensures ok ==> forall j :: 0 <= j < blockMemory.Length ==> blockMemory[j] == 0
    {
      threw := Stop();
      if threw {
        ok := false;
        return;
      }
      ok := Create(devices, outputDevice, rate, ch, blocks, samples, openOk);
    }

    method SetUserFunction(f: (real, int) -> real)
      modifies this
      ensures userFunction == Some(f)
      ensures sampleRate == old(sampleRate) && channels == old(channels)
      ensures blockCount == old(blockCount) && blockSamples == old(blockSamples)
      ensures blockFree == old(blockFree) && blockCurrent == old(blockCurrent)
      ensures blockMemory == old(blockMemory) && waveHeaders == old(waveHeaders)
      ensures device == old(device) && ready == old(ready) && globalTime == old(globalTime)
      ensures inFlight == old(inFlight) && threadJoinable == old(threadJoinable)
    {
      userFunction := Some(f);
    }

    /** `waveOutProc`: a `WOM_DONE` message gives one block back; any
        other message changes nothing. */
    method WaveOutProc(msg: nat)
      requires msg == WomDone ==> inFlight > 0
      modifies this
      ensures msg == WomDone ==> blockFree == old(blockFree) + 1 && inFlight == old(inFlight) - 1
      ensures msg == WomDone ==> blockFree + inFlight == old(blockFree) + old(inFlight)
      ensures msg != WomDone ==> unchanged(this)
      ensures sampleRate == old(sampleRate) && channels == old(channels)
      ensures blockCount == old(blockCount) && blockSamples == old(blockSamples)
      ensures blockCurrent == old(blockCurrent) && ready == old(ready)
      ensures blockMemory == old(blockMemory) && waveHeaders == old(waveHeaders)
      ensures device == old(device) && globalTime == old(globalTime)
      ensures userFunction == old(userFunction) && threadJoinable == old(threadJoinable)
      ensures old(Valid()) ==> Valid()
    {
      if msg != WomDone {
        return;
      }
      blockFree := blockFree + 1;
      inFlight := inFlight - 1;
    }

    /** One iteration of the generation loop, entered with a block free:
        takes the current block, fills it (`WriteBlock`), hands it to the
        device and moves on to the next block round-robin.  No sample
        outside the block changes. */
    method FillBlock()
      requires Valid() && ready && blockFree > 0 && sampleRate > 0
      modifies this, blockMemory
      ensures Valid() && ready
      ensures blockFree == old(blockFree) - 1 && inFlight == old(inFlight) + 1
      ensures blockCurrent == (old(blockCurrent) + 1) % blockCount
      ensures blockCurrent < blockCount
      ensures sampleRate == old(sampleRate) && channels == old(channels)
      ensures blockCount == old(blockCount) && blockSamples == old(blockSamples)
      ensures blockMemory == old(blockMemory) && waveHeaders == old(waveHeaders)
      ensures device == old(device) && userFunction == old(userFunction)
      ensures threadJoinable == old(threadJoinable)
      ensures globalTime == FrameTime(old(globalTime), TimeStep(sampleRate), FramesPerBlock(blockSamples, channels))
      ensures BlockStart(old(blockCurrent), blockSamples, channels) + blockSamples * channels <= blockMemory.Length
      ensures var base := BlockStart(old(blockCurrent), blockSamples, channels);
        forall j :: 0 <= j < blockMemory.Length && !(base <= j < base + blockSamples * channels) ==>
          blockMemory[j] == old(blockMemory[j])
      ensures var base := BlockStart(old(blockCurrent), blockSamples, channels);
        forall f, n :: 0 <= f < blockSamples && 0 <= n < channels ==>
          && SampleIndex(base, f, n, channels) < base + blockSamples * channels
          && blockMemory[SampleIndex(base, f, n, channels)]
               == Quantize(Source(userFunction, FrameTime(old(globalTime), TimeStep(sampleRate), f), n))
    {
      blockFree := blockFree - 1;
      inFlight := inFlight + 1;
      var base := BlockStart(blockCurrent, blockSamples, channels);
      BlockInBuffer(blockCurrent, blockCount, blockSamples * channels);
      WriteBlock(blockMemory, base);
      blockCurrent := blockCurrent + 1;
      blockCurrent := blockCurrent % blockCount;
    }

    /** The block-filling loop of one iteration: for each frame, generate
        every channel's sample at the current time, store the frame at its
        place in the block starting at `base`, then advance the time by one
        step. */
    method WriteBlock(memory: array<int>, base: nat)
      requires sampleRate > 0
      requires base + blockSamples * channels <= memory.Length
      modifies memory, this`globalTime
      ensures globalTime == FrameTime(old(globalTime), TimeStep(sampleRate), FramesPerBlock(blockSamples, channels))
      ensures forall j :: 0 <= j < memory.Length && !(base <= j < base + blockSamples * channels) ==>
        memory[j] == old(memory[j])
      ensures forall f, n :: 0 <= f < blockSamples && 0 <= n < channels ==>
        && SampleIndex(base, f, n, channels) < base + blockSamples * channels
        && memory[SampleIndex(base, f, n, channels)]
             == Quantize(Source(userFunction, FrameTime(old(globalTime), TimeStep(sampleRate), f), n))
    {
      var step := TimeStep(sampleRate);
      var t0 := globalTime;
      var size := blockSamples * channels;
      var newSample := new int[channels](_ => 0);

      var i := 0;
      ghost var f := 0;
      while i < size
        modifies memory, newSample, this`globalTime
        invariant f <= FramesPerBlock(blockSamples, channels)
        invariant i == FrameOffset(f, channels) && i <= size
        invariant globalTime == FrameTime(t0, step, f)
        invariant forall j :: 0 <= j < memory.Length && !(base <= j < base + i) ==>
          memory[j] == old(memory[j])
        invariant forall g, n :: 0 <= g < f && 0 <= n < channels ==>
          && SampleIndex(base, g, n, channels) < base + i
          && memory[SampleIndex(base, g, n, channels)] == Quantize(Source(userFunction, FrameTime(t0, step, g), n))
        decreases size - i
      {
        FrameFits(f, blockSamples, channels);
        GenerateFrame(userFunction, globalTime, newSample);
        label BeforeCopy:
        CopyFrame(memory, base + i, newSample);
        forall g, n | 0 <= g < f && 0 <= n < channels
          ensures memory[SampleIndex(base, g, n, channels)]
               == old@BeforeCopy(memory[SampleIndex(base, g, n, channels)])
        {
        }
        forall n | 0 <= n < channels
          ensures SampleIndex(base, f, n, channels) == base + i + n
          ensures memory[SampleIndex(base, f, n, channels)] == newSample[n]
        {
        }
        globalTime := globalTime + step;
        i := i + channels;
        f := f + 1;
      }
      FramesDone(f, blockSamples, channels);
    }
  }

  /** The zeroed buffer of `Create`: `blockCount * channels *
      blockSamples` samples. */
  method AllocateBlocks(blockCount: nat, blockSamples: nat, channels: nat) returns (memory: array<int>)
    ensures fresh(memory) && memory.Length == blockCount * (blockSamples * channels)
    ensures forall j :: 0 <= j < memory.Length ==> memory[j] == 0
  {
    memory := new int[blockCount * channels * blockSamples](_ => 0);
    assert blockCount * channels * blockSamples == blockCount * (blockSamples * channels);
  }

  /** The header-linking loop of `Create`: header `i` covers block `i`. */
  method LinkHeaders(blockCount: nat, blockSamples: nat, channels: nat) returns (headers: array<WaveHeader>)
    ensures fresh(headers) && headers.Length == blockCount
    ensures forall i :: 0 <= i < blockCount ==> headers[i] == LinkedHeader(i, blockSamples, channels)
  {
    headers := new WaveHeader[blockCount](_ => WaveHeader(0, 0));
    var i := 0;
    while i < blockCount
      invariant 0 <= i <= blockCount
      invariant forall j :: 0 <= j < i ==> headers[j] == LinkedHeader(j, blockSamples, channels)
    {
      headers[i] := WaveHeader(blockSamples * SampleBytes * channels, i * blockSamples * channels);
      assert i * blockSamples * channels == BlockStart(i, blockSamples, channels);
      i := i + 1;
    }
  }

  /** The per-frame generation loop: channel `n` of the frame is the
      sample function's value at time `t` for channel `n`, quantized. */
  method GenerateFrame(userFunction: Option<(real, int) -> real>, t: real, frame: array<int>)
    modifies frame
    ensures forall n :: 0 <= n < frame.Length ==> frame[n] == Quantize(Source(userFunction, t, n))
  {
    var n := 0;
    while n < frame.Length
      invariant 0 <= n <= frame.Length
      invariant forall m :: 0 <= m < n ==> frame[m] == Quantize(Source(userFunction, t, m))
    {
      frame[n] := Quantize(Source(userFunction, t, n));
      n := n + 1;
    }
  }

  /** The per-frame copy loop: stores the frame at `at` and nothing else. */
  method CopyFrame(memory: array<int>, at: nat, frame: array<int>)
    requires at + frame.Length <= memory.Length && memory != frame
    modifies memory
    ensures forall j :: 0 <= j < memory.Length && !(at <= j < at + frame.Length) ==>
      memory[j] == old(memory[j])
    ensures forall m :: 0 <= m < frame.Length ==> memory[at + m] == frame[m]
  {
    var n := 0;
    while n < frame.Length
      invariant 0 <= n <= frame.Length
      invariant forall j :: 0 <= j < memory.Length && !(at <= j < at + n) ==> memory[j] == old(memory[j])
      invariant forall m :: 0 <= m < n ==> memory[at + m] == frame[m]
    {
      memory[at + n] := frame[n];
      n := n + 1;
    }
  }
}
