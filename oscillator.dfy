/** The oscillator's parameter record and its output scaling
    (Oscillator.h, Oscillator.cpp).

    The C++ `oscParams` struct is a value: `SetParameters` copies it
    whole, every other setter overwrites one or two of its fields.  It is
    modelled by the datatype `OscParams`; the `Oscillator` class owns one
    such record and its methods reassign it.  The waveform mathematics
    (`sin`, `fmod`, `asin`, `rand`) is not modelled: `Play` receives the
    sine value and the value of the saw/triangle/noise formula as inputs. */
module Oscillators {

  /** `std::uint8_t` and `int8_t` of the source. */
  type UInt8 = x: int | 0 <= x < 256
  type Int8 = x: int | -128 <= x < 128

  /** `double dChannelVolume[4]`. */
  type Gains = s: seq<real> | |s| == 4 witness [0.0, 0.0, 0.0, 0.0]

  // Wave-kind codes.
  const WaveSine: UInt8 := 1
  const WaveSquare: UInt8 := 2
  const WaveSaw: UInt8 := 3
  const WaveTri: UInt8 := 4
  const WaveNoise: UInt8 := 5

  /** The channel code for mono output, the source's default channel of
      `Play`; channels 0 to 3 select a channel volume. */
  const ChMono: Int8 := -1

  /** The wave codes `Play` knows; any other code plays silence. */
  predicate IsWaveCode(w: UInt8) {
    WaveSine <= w <= WaveNoise
  }

  /** The `oscParams` record. */
  datatype OscParams = OscParams(
    wave: UInt8,
    volume: real,
    channelVolume: Gains,
    fineTune: Int8,     // in cents; no setter ever stores it
    freq: real,
    octaveMod: Int8,
    drone: bool,
    fm: real,
    amplitude: real,
    lfo: bool)

  /** The field initialisers of `oscParams`; `dAmplitude` starts as `dVolume`. */
  const DefaultParams: OscParams :=
    OscParams(WaveSine, 1.0, [0.5, 0.5, 0.0, 0.0], 0, 440.0, 0, false, 0.0, 1.0, false)

  /** The octave transpose `SetOctave` stores: clamped to [-4, 4]. */
  function ClampOctave(n: Int8): (m: Int8)
    ensures -4 <= m <= 4
    ensures -4 <= n <= 4 ==> m == n
    ensures n < -4 ==> m == -4
    ensures n > 4 ==> m == 4
  {
    if n < -4 then -4 else if n > 4 then 4 else n
  }

  /** `SetAM` and `AddAM` replace a negative modulation by 0. */
  function ClampModulation(d: real): (m: real)
    ensures m >= 0.0
    ensures d >= 0.0 ==> m == d
    ensures d < 0.0 ==> m == 0.0
  {
    if d < 0.0 then 0.0 else d
  }

  /** The record after `SetChannelVolume(ch, v)`: a channel above 3 is ignored. */
  function WithChannelVolume(p: OscParams, ch: UInt8, v: real): (q: OscParams)
    ensures ch > 3 ==> q == p
    ensures ch <= 3 ==> q.channelVolume[ch] == v
    ensures forall c :: 0 <= c < 4 && c != ch ==> q.channelVolume[c] == p.channelVolume[c]
    ensures q == p.(channelVolume := q.channelVolume)
  {
    if ch > 3 then p else p.(channelVolume := p.channelVolume[ch := v])
  }

  /** One call of a setter of the class, as seen by the record. */
  datatype Setter =
    | SetParameters(p: OscParams)
    | SetVolume(volume: real)
    | SetChannelVolume(channel: UInt8, volume: real)
    | SetChannelVolumes(gains: Gains)
    | SetWave(wave: UInt8)
    | SetFrequency(freq: real)
    | SetFineTune(cents: int)
    | SetDrone(drone: bool)
    | SetFM(freqMod: real)
    | AddFM(freqMod: real)
    | SetAM(ampMod: real)
    | AddAM(ampMod: real)
    | ResetAM
    | SetLFO(lfo: bool)
    | SetOctave(octave: Int8)

  /** The record after one setter call. */
  function Apply(p: OscParams, s: Setter): (r: OscParams)
    ensures KeepsVolume(s) ==> r.volume == p.volume
    ensures s.SetVolume? || s.ResetAM? ==> r.amplitude == r.volume
    ensures s.SetAM? ==> r.amplitude >= 0.0
    ensures !s.SetParameters? ==> r.fineTune == p.fineTune
    ensures !s.SetParameters? && -4 <= p.octaveMod <= 4 ==> -4 <= r.octaveMod <= 4
  {
    match s
    case SetParameters(q) => q
    case SetVolume(v) => p.(volume := v, amplitude := v)
    case SetChannelVolume(ch, v) => WithChannelVolume(p, ch, v)
    case SetChannelVolumes(g) => p.(channelVolume := g)
    case SetWave(w) => p.(wave := w)
    case SetFrequency(f) => p.(freq := f)
    case SetFineTune(_) => p
    case SetDrone(b) => p.(drone := b)
    case SetFM(d) => p.(fm := d)
    case AddFM(d) => p.(fm := p.fm + d)
    case SetAM(d) => p.(amplitude := ClampModulation(d))
    case AddAM(d) => p.(amplitude := p.amplitude * ClampModulation(d))
    case ResetAM => p.(amplitude := p.volume)
    case SetLFO(b) => p.(lfo := b)
    case SetOctave(n) => p.(octaveMod := ClampOctave(n))
  }

  /** The record after a run of setter calls, first call first. */
  function Run(p: OscParams, ss: seq<Setter>): OscParams
    decreases |ss|
  {
    if ss == [] then p else Run(Apply(p, ss[0]), ss[1..])
  }

  /** The raw waveform value before channel and amplitude scaling.
      `sine` is `sin(2*PI*f*t + FM)`; `shaped` is what the saw, triangle
      or noise formula gives, computed outside the model. */
  function RawWave(wave: UInt8, sine: real, shaped: real): (r: real)
    ensures wave == WaveSine ==> r == sine
    ensures wave == WaveSquare ==> (r == 1.0 <==> sine > 0.0) && (r == -1.0 <==> sine <= 0.0)
    ensures wave == WaveSaw || wave == WaveTri || wave == WaveNoise ==> r == shaped
    ensures !IsWaveCode(wave) ==> r == 0.0
  {
    if wave == WaveSine then sine
    else if wave == WaveSquare then (if sine > 0.0 then 1.0 else -1.0)
    else if wave == WaveSaw || wave == WaveTri || wave == WaveNoise then shaped
    else 0.0
  }

  class Oscillator {
    var parameters: OscParams

    /** A fresh oscillator holds the struct's default field values. */
    constructor ()
      ensures parameters == DefaultParams
      ensures parameters.wave == WaveSine && parameters.freq == 440.0 && parameters.octaveMod == 0
      ensures parameters.volume == 1.0 && parameters.amplitude == parameters.volume
      ensures parameters.channelVolume == [0.5, 0.5, 0.0, 0.0]
      ensures !parameters.drone && !parameters.lfo && parameters.fm == 0.0
    {
      parameters := DefaultParams;
    }

    method SetParameters(p: OscParams)
      modifies this
      ensures parameters == Apply(old(parameters), Setter.SetParameters(p))
    {
      parameters := p;
    }

    /** Sets the volume and, with it, the current amplitude. */
    method SetVolume(v: real)
      modifies this
      ensures parameters == Apply(old(parameters), Setter.SetVolume(v))
      ensures parameters.volume == v && parameters.amplitude == v
    {
      parameters := parameters.(volume := v);
      parameters := parameters.(amplitude := v);
    }

    method SetChannelVolume(ch: UInt8, v: real)
      modifies this
      ensures parameters == Apply(old(parameters), Setter.SetChannelVolume(ch, v))
      ensures ch <= 3 ==> GetChannelVolume(ch) == v
      ensures forall c: UInt8 :: c != ch ==> GetChannelVolume(c) == old(GetChannelVolume(c))
    {
      if ch < 0 || ch > 3 {
        return;
      }
      parameters := parameters.(channelVolume := parameters.channelVolume[ch := v]);
    }

    /** The array overload of `SetChannelVolume`: copies four gains. */
    method SetChannelVolumes(gains: seq<real>)
      requires |gains| >= 4
      modifies this
      ensures parameters == Apply(old(parameters), Setter.SetChannelVolumes(gains[..4]))
    {
      var i := 0;
      while i < 4
        invariant 0 <= i <= 4
        invariant parameters == old(parameters).(channelVolume := parameters.channelVolume)
        invariant forall j :: 0 <= j < i ==> parameters.channelVolume[j] == gains[j]
        invariant forall j :: i <= j < 4 ==> parameters.channelVolume[j] == old(parameters).channelVolume[j]
      {
        parameters := parameters.(channelVolume := parameters.channelVolume[i := gains[i]]);
        i := i + 1;
      }
      assert parameters.channelVolume == gains[..4];
    }

    method SetWave(w: UInt8)
      modifies this
      ensures parameters == Apply(old(parameters), Setter.SetWave(w))
    {
      parameters := parameters.(wave := w);
    }

    method SetFrequency(f: real)
      modifies this
      ensures parameters == Apply(old(parameters), Setter.SetFrequency(f))
    {
      parameters := parameters.(freq := f);
    }

    /** Fine tuning is not implemented: the call changes nothing. */
    method SetFineTune(cents: int)
      ensures unchanged(this)
      ensures parameters == Apply(old(parameters), Setter.SetFineTune(cents))
    {
    }

    method SetDrone(b: bool)
      modifies this
      ensures parameters == Apply(old(parameters), Setter.SetDrone(b))
    {
      parameters := parameters.(drone := b);
    }

    /** Overwrites the frequency modulation. */
    method SetFM(d: real)
      modifies this
      ensures parameters == Apply(old(parameters), Setter.SetFM(d))
      ensures parameters.fm == d
    {
      parameters := parameters.(fm := d);
    }

    /** Accumulates into the frequency modulation. */
    method AddFM(d: real)
      modifies this
      ensures parameters == Apply(old(parameters), Setter.AddFM(d))
      ensures parameters.fm == old(parameters.fm) + d
    {
      parameters := parameters.(fm := parameters.fm + d);
    }

    /** Overwrites the amplitude with the modulation, negatives read as 0. */
    method SetAM(d: real)
      modifies this
      ensures parameters == Apply(old(parameters), Setter.SetAM(d))
      ensures parameters.amplitude >= 0.0
    {
      var m := d;
      if m < 0.00 {
        m := 0.0;
      }
      parameters := parameters.(amplitude := m);
    }

    /** Multiplies the amplitude by the modulation, negatives read as 0. */
    method AddAM(d: real)
      modifies this
      ensures parameters == Apply(old(parameters), Setter.AddAM(d))
      ensures old(parameters.amplitude) >= 0.0 ==> parameters.amplitude >= 0.0
    {
      var m := d;
      if m < 0.00 {
        m := 0.0;
      }
      parameters := parameters.(amplitude := parameters.amplitude * m);
    }

    /** Restores the amplitude to the volume. */
    method ResetAM()
      modifies this
      ensures parameters == Apply(old(parameters), Setter.ResetAM)
      ensures parameters.amplitude == parameters.volume
    {
      parameters := parameters.(amplitude := parameters.volume);
    }

    method SetLFO(b: bool)
      modifies this
      ensures parameters == Apply(old(parameters), Setter.SetLFO(b))
    {
      parameters := parameters.(lfo := b);
    }

    /** Stores the octave transpose, clamped to [-4, 4]. */
    method SetOctave(n: Int8)
      modifies this
      ensures parameters == Apply(old(parameters), Setter.SetOctave(n))
      ensures -4 <= parameters.octaveMod <= 4
    {
      var m := n;
      if m < -4 {
        m := -4;
      } else if m > 4 {
        m := 4;
      }
      parameters := parameters.(octaveMod := m);
    }

    function GetVolume(): real reads this { parameters.volume }
    function GetFrequency(): real reads this { parameters.freq }
    function GetDrone(): bool reads this { parameters.drone }
    function IsLFO(): bool reads this { parameters.lfo }
    function GetOctaveMod(): Int8 reads this { parameters.octaveMod }

    /** The gain of one channel; a channel above 3 reads as 0. */
    function GetChannelVolume(ch: UInt8): (r: real)
      reads this
      ensures ch > 3 ==> r == 0.0
      ensures ch <= 3 ==> r == parameters.channelVolume[ch]
    {
      if ch < 0 || ch > 3 then 0.0 else parameters.channelVolume[ch]
    }

    /** One output sample: the raw waveform, scaled by the channel's gain
        unless the channel is mono (a channel above 3 counts as mono),
        then by the current amplitude.  A channel below -1 would index
        outside `dChannelVolume`, so callers do not pass one. */
    function Play(sine: real, shaped: real, ch: Int8): (r: real)
      reads this
      requires ch >= ChMono
      ensures ch == ChMono || ch > 3 ==> r == RawWave(parameters.wave, sine, shaped) * parameters.amplitude
      ensures 0 <= ch <= 3 ==>
        r == RawWave(parameters.wave, sine, shaped) * GetChannelVolume(ch) * parameters.amplitude
    {
      var output := RawWave(parameters.wave, sine, shaped);
      var c := if ch > 3 then ChMono else ch;
      if c == ChMono then output * parameters.amplitude
      else output * parameters.channelVolume[c] * parameters.amplitude
    }
  }

  /** "The amplitude is not negative while the volume is not." */
  predicate AmplitudeSignOk(p: OscParams) {
    p.volume >= 0.0 ==> p.amplitude >= 0.0
  }

  lemma ApplyKeepsAmplitudeSign(p: OscParams, s: Setter)
    requires AmplitudeSignOk(p) && !s.SetParameters?
    ensures AmplitudeSignOk(Apply(p, s))
  {
    if s.AddAM? {
      var m := ClampModulation(s.ampMod);
      if p.volume >= 0.0 {
        assert p.amplitude * m >= 0.0;
      }
    }
  }

  /** Every setter but `SetParameters` keeps the amplitude non-negative
      while the volume is non-negative, whatever AM does. */
  lemma {:induction false} RunKeepsAmplitudeSign(p: OscParams, ss: seq<Setter>)
    requires AmplitudeSignOk(p)
    requires forall i :: 0 <= i < |ss| ==> !ss[i].SetParameters?
    ensures AmplitudeSignOk(Run(p, ss))
    decreases |ss|
  {
    if ss != [] {
      ApplyKeepsAmplitudeSign(p, ss[0]);
      RunKeepsAmplitudeSign(Apply(p, ss[0]), ss[1..]);
    }
  }

  /** Only `SetVolume` and `SetParameters` change the volume. */
  predicate KeepsVolume(s: Setter) {
    !s.SetVolume? && !s.SetParameters?
  }

  lemma {:induction false} RunKeepsVolume(p: OscParams, ss: seq<Setter>)
    requires forall i :: 0 <= i < |ss| ==> KeepsVolume(ss[i])
    ensures Run(p, ss).volume == p.volume
    decreases |ss|
  {
    if ss != [] {
      RunKeepsVolume(Apply(p, ss[0]), ss[1..]);
    }
  }

  /** `SetVolume(v)`, then any calls that leave the volume alone (any
      amount of AM, FM, gains, octave...), then `ResetAM`: the amplitude
      is `v` again. */
  lemma ResetRestoresVolume(p: OscParams, v: real, ss: seq<Setter>)
    requires forall i :: 0 <= i < |ss| ==> KeepsVolume(ss[i])
    ensures Run(p, [Setter.SetVolume(v)] + ss + [Setter.ResetAM]).amplitude == v
  {
    RunAppend(p, [Setter.SetVolume(v)] + ss, [Setter.ResetAM]);
    RunAppend(p, [Setter.SetVolume(v)], ss);
    RunKeepsVolume(Apply(p, Setter.SetVolume(v)), ss);
  }

  lemma {:induction false} RunAppend(p: OscParams, ss: seq<Setter>, ts: seq<Setter>)
    ensures Run(p, ss + ts) == Run(Run(p, ss), ts)
    decreases |ss|
  {
    if ss != [] {
      assert (ss + ts)[1..] == ss[1..] + ts;
      RunAppend(Apply(p, ss[0]), ss[1..], ts);
    } else {
      assert ss + ts == ts;
    }
  }

  /** Replaying a call followed by a run is replaying the run from the
      record that call leaves. */
  lemma RunCons(p: OscParams, s: Setter, ss: seq<Setter>)
    ensures Run(p, [s] + ss) == Run(Apply(p, s), ss)
  {
    assert ([s] + ss)[1..] == ss;
  }

  function Sum(ds: seq<real>): real {
    if ds == [] then 0.0 else ds[0] + Sum(ds[1..])
  }

  function ClampedProduct(ms: seq<real>): real {
    if ms == [] then 1.0 else ClampModulation(ms[0]) * ClampedProduct(ms[1..])
  }

  function AddFMs(ds: seq<real>): (ss: seq<Setter>)
    ensures |ss| == |ds|
  {
    if ds == [] then [] else [Setter.AddFM(ds[0])] + AddFMs(ds[1..])
  }

  function AddAMs(ms: seq<real>): (ss: seq<Setter>)
    ensures |ss| == |ms|
  {
    if ms == [] then [] else [Setter.AddAM(ms[0])] + AddAMs(ms[1..])
  }

  /** `AddFM` accumulates: a run of them adds their sum to FM. */
  lemma {:induction false} FmAccumulates(p: OscParams, ds: seq<real>)
    ensures Run(p, AddFMs(ds)).fm == p.fm + Sum(ds)
    ensures Run(p, AddFMs(ds)) == p.(fm := p.fm + Sum(ds))
    decreases |ds|
  {
    if ds != [] {
      assert AddFMs(ds)[1..] == AddFMs(ds[1..]);
      FmAccumulates(Apply(p, Setter.AddFM(ds[0])), ds[1..]);
    }
  }

  /** `SetFM` overwrites: whatever FM held, `SetFM(d)` then a run of
      `AddFM` leaves `d` plus their sum. */
  lemma SetFmOverwrites(p: OscParams, d: real, ds: seq<real>)
    ensures Run(p, [Setter.SetFM(d)] + AddFMs(ds)).fm == d + Sum(ds)
  {
    assert ([Setter.SetFM(d)] + AddFMs(ds))[1..] == AddFMs(ds);
    FmAccumulates(Apply(p, Setter.SetFM(d)), ds);
  }

  /** `AddAM` multiplies: a run of them scales the amplitude by the
      product of the (clamped) modulations. */
  lemma {:induction false} AmAccumulates(p: OscParams, ms: seq<real>)
    ensures Run(p, AddAMs(ms)).amplitude == p.amplitude * ClampedProduct(ms)
    ensures Run(p, AddAMs(ms)) == p.(amplitude := p.amplitude * ClampedProduct(ms))
    decreases |ms|
  {
    if ms != [] {
      assert AddAMs(ms)[1..] == AddAMs(ms[1..]);
      var q := Apply(p, Setter.AddAM(ms[0]));
      AmAccumulates(q, ms[1..]);
      assert q.amplitude * ClampedProduct(ms[1..])
          == p.amplitude * (ClampModulation(ms[0]) * ClampedProduct(ms[1..]));
    }
  }

  /** One matrix pass's AM discipline: `ResetAM` then a run of `AddAM`
      gives volume times the product of the clamped modulations. */
  lemma ResetThenAddAm(p: OscParams, ms: seq<real>)
    ensures Run(p, [Setter.ResetAM] + AddAMs(ms)).amplitude == p.volume * ClampedProduct(ms)
  {
    RunCons(p, Setter.ResetAM, AddAMs(ms));
    AddAmsAfterReset(p, Apply(p, Setter.ResetAM), ms);
  }

  /** The AddAM run of `ResetThenAddAm`, started from the reset record. */
  lemma AddAmsAfterReset(p: OscParams, q: OscParams, ms: seq<real>)
    requires q == p.(amplitude := p.volume)
    ensures Run(q, AddAMs(ms)).amplitude == p.volume * ClampedProduct(ms)
  {
    AmAccumulates(q, ms);
  }

  /** `SetFineTune` changes nothing, and a setter of one field leaves the
      others as they were. */
  lemma SetOctaveOnlyOctave(p: OscParams, n: Int8)
    ensures Apply(p, Setter.SetOctave(n)) == p.(octaveMod := ClampOctave(n))
    ensures Apply(p, Setter.SetFineTune(n)) == p
  {
  }

  /** The square wave has magnitude exactly the gain times the amplitude. */
  lemma SquareMagnitude(o: Oscillator, sine: real, ch: Int8)
    requires o.parameters.wave == WaveSquare && ch >= ChMono
    ensures var g := if 0 <= ch <= 3 then o.GetChannelVolume(ch) else 1.0;
      o.Play(sine, 0.0, ch) == (if sine > 0.0 then g else -g) * o.parameters.amplitude
  {
  }

  /** For sine and square waves with gains in [0, 1] and a non-negative
      amplitude, a sine value in [-1, 1] plays inside [-amplitude, amplitude]. */
  lemma PlayBounded(o: Oscillator, sine: real, shaped: real, ch: Int8)
    requires o.parameters.wave == WaveSine || o.parameters.wave == WaveSquare
    requires -1.0 <= sine <= 1.0 && ch >= ChMono
    requires o.parameters.amplitude >= 0.0
    requires forall c :: 0 <= c < 4 ==> 0.0 <= o.parameters.channelVolume[c] <= 1.0
    ensures -o.parameters.amplitude <= o.Play(sine, shaped, ch) <= o.parameters.amplitude
  {
    var raw := RawWave(o.parameters.wave, sine, shaped);
    var a := o.parameters.amplitude;
    assert -1.0 <= raw <= 1.0;
    if ch == ChMono || ch > 3 {
      ScaleWithinUnit(raw, a);
      assert o.Play(sine, shaped, ch) == raw * a;
    } else {
      var g := o.GetChannelVolume(ch);
      assert 0.0 <= g <= 1.0;
      ScaleTwiceWithinUnit(raw, g, a);
      assert o.Play(sine, shaped, ch) == raw * g * a;
    }
  }

  /** Scaling by a gain in [0, 1] and then by `a` stays within `a`. */
  lemma ScaleTwiceWithinUnit(u: real, g: real, a: real)
    requires -1.0 <= u <= 1.0 && 0.0 <= g <= 1.0 && a >= 0.0
    ensures -a <= u * g * a <= a
  {
    ScaleWithinUnit(u, g);
    var ug := u * g;
    ScaleWithinUnit(ug, a);
  }

  /** Scaling by a factor in [-1, 1] stays within the scaled magnitude. */
  lemma ScaleWithinUnit(u: real, a: real)
    requires -1.0 <= u <= 1.0 && a >= 0.0
    ensures -a <= u * a <= a
  {
    assert (1.0 - u) * a >= 0.0;
    assert (1.0 + u) * a >= 0.0;
  }

  /** A fresh oscillator: channels 2 and 3 are silent until their gain is
      set, and channels 0 and 1 play at half the mono level. */
  lemma FreshChannels(sine: real, shaped: real, ch: Int8)
    requires 0 <= ch <= 3
    ensures var raw := RawWave(DefaultParams.wave, sine, shaped);
      (ch >= 2 ==> raw * DefaultParams.channelVolume[ch] * DefaultParams.amplitude == 0.0) &&
      (ch <= 1 ==> raw * DefaultParams.channelVolume[ch] * DefaultParams.amplitude == 0.5 * sine)
  {
  }
}
