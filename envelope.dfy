/** The ADSR envelope (Envelope.h, Envelope.cpp).

    Time is an explicit integer clock reading `now` in ticks, passed to
    every call that reads `std::clock()`.  Attack, decay and release are
    held as positive tick counts: the millisecond-to-tick conversion of
    the source happens before the model. */
module Envelopes {

  /** A positive duration in clock ticks. */
  type Ticks = x: int | x > 0 witness 1

  /** `EnvelopeParameters`: attack, decay and release in ticks, sustain level. */
  datatype EnvelopeParameters = EnvelopeParameters(attack: Ticks, decay: Ticks, sustain: real, release: Ticks)

  /** The defaults 1 ms, 10 ms, 0.8 and 100 ms, at one tick per millisecond
      (`CLOCKS_PER_SEC` == 1000 on the platform the source targets). */
  const DefaultParameters := EnvelopeParameters(1, 10, 0.8, 100)

  /** Everything an `Envelope` object holds. */
  datatype EnvelopeState = EnvelopeState(
    parameters: EnvelopeParameters,
    triggerStart: int,
    triggerEnd: int,
    active: bool,
    released: bool,
    endAmplitude: real)

  /** A fresh envelope: inactive, not released, captured amplitude 0.  The
      trigger times are uninitialised in the source; they are read only
      after `StartEnvelope` / `StopEnvelope` has set them, so 0 stands for them. */
  const Fresh := EnvelopeState(DefaultParameters, 0, 0, false, false, 0.0)

  /** What one `GetAmplitude` call reports, and the state it leaves. */
  datatype Reading = Reading(amplitude: real, next: EnvelopeState)

  /** `GetAmplitude` at clock reading `now`, as the source computes it. */
  function Sample(s: EnvelopeState, now: int): (r: Reading)
    ensures !s.active ==> r == Reading(0.0, s)
    ensures r.next == s || (r.next == s.(active := false) && r.amplitude == 0.0)
  {
    if !s.active then Reading(0.0, s)
    else
      var p := s.parameters;
      var elapsed := now - s.triggerStart;
      if elapsed <= p.attack && !s.released then
        Reading(elapsed as real / p.attack as real, s)
      else if p.sustain != 0.0 && !s.released then
        if elapsed - p.attack <= p.decay then
          var k := (elapsed - p.attack) as real / p.decay as real;
          Reading(1.0 - k * (1.0 - p.sustain), s)
        else
          Reading(p.sustain, s)
      else if s.released then
        if now - s.triggerEnd <= p.release then
          var k := (now - s.triggerEnd) as real / p.release as real;
          Reading(s.endAmplitude - k * s.endAmplitude, s)
        else
          Reading(0.0, s.(active := false))
      else
        if elapsed - p.attack <= p.release then
          var k := (elapsed + p.attack) as real / p.release as real;
          Reading(1.0 - k, s)
        else
          Reading(0.0, s.(active := false))
  }

  /** `StartEnvelope`. */
  function Start(s: EnvelopeState, now: int): (t: EnvelopeState)
    ensures t.active && !t.released && t.triggerStart == now
    ensures t.(triggerStart := s.triggerStart, active := s.active, released := s.released) == s
  {
    s.(triggerStart := now, active := true, released := false)
  }

  /** `StopEnvelope`: captures what `GetAmplitude` reports at `now` (which
      may deactivate the envelope), records `now` as the end time and
      marks the envelope released. */
  function Stop(s: EnvelopeState, now: int): (t: EnvelopeState)
    ensures t.released && t.triggerEnd == now
    ensures t.endAmplitude == Sample(s, now).amplitude
    ensures t.active == Sample(s, now).next.active
    ensures t.parameters == s.parameters && t.triggerStart == s.triggerStart
  {
    var r := Sample(s, now);
    r.next.(endAmplitude := r.amplitude, triggerEnd := now, released := true)
  }

  class Envelope {
    var parameters: EnvelopeParameters
    var triggerStart: int
    var triggerEnd: int
    var active: bool
    var released: bool
    var endAmplitude: real

    function State(): EnvelopeState
      reads this
    {
      EnvelopeState(parameters, triggerStart, triggerEnd, active, released, endAmplitude)
    }

    constructor ()
      ensures State() == Fresh
      ensures !active && !released && endAmplitude == 0.0
    {
      parameters := DefaultParameters;
      triggerStart, triggerEnd := 0, 0;
      active, released := false, false;
      endAmplitude := 0.0;
    }

    method SetAttack(attack: Ticks)
      modifies this
      ensures State() == old(State()).(parameters := old(parameters).(attack := attack))
    {
      parameters := parameters.(attack := attack);
    }

    method SetDecay(decay: Ticks)
      modifies this
      ensures State() == old(State()).(parameters := old(parameters).(decay := decay))
    {
      parameters := parameters.(decay := decay);
    }

    method SetSustain(sustain: real)
      modifies this
      ensures State() == old(State()).(parameters := old(parameters).(sustain := sustain))
    {
      parameters := parameters.(sustain := sustain);
    }

    method SetRelease(release: Ticks)
      modifies this
      ensures State() == old(State()).(parameters := old(parameters).(release := release))
    {
      parameters := parameters.(release := release);
    }

    /** The amplitude at clock reading `now`; clears `active` once the
        release has run out. */
    method GetAmplitude(now: int) returns (amp: real)
      modifies this
      ensures Reading(amp, State()) == Sample(old(State()), now)
    {
      if !active {
        return 0.0;
      }
      var attack := parameters.attack;
      var decay := parameters.decay;
      if now - triggerStart <= attack && !released {
        var k := (now - triggerStart) as real / attack as real;
        return k;
      } else if parameters.sustain != 0.0 && !released {
        if now - triggerStart - attack <= decay {
          var k := (now - triggerStart - attack) as real / decay as real;
          return 1.0 - k * (1.0 - parameters.sustain);
        } else {
          return parameters.sustain;
        }
      } else {
        var release := parameters.release;
        if released {
          if now - triggerEnd <= release {
            var k := (now - triggerEnd) as real / release as real;
            return endAmplitude - k * endAmplitude;
          } else {
            active := false;
          }
        } else {
          if now - triggerStart - attack <= release {
            var k := (now - triggerStart + attack) as real / release as real;
            return 1.0 - k;
          } else {
            active := false;
          }
        }
      }
      return 0.0;
    }

    method StartEnvelope(now: int)
      modifies this
      ensures State() == Start(old(State()), now)
    {
      triggerStart := now;
      active := true;
      released := false;
    }

    method StopEnvelope(now: int)
      modifies this
      ensures State() == Stop(old(State()), now)
    {
      endAmplitude := GetAmplitude(now);
      triggerEnd := now;
      released := true;
    }
  }

  /** A fresh envelope reports 0 whenever it is read. */
  lemma FreshIsSilent(now: int)
    ensures Sample(Fresh, now) == Reading(0.0, Fresh)
    ensures !Fresh.active && !Fresh.released && Fresh.endAmplitude == 0.0
  {
  }

  /** Attack: the amplitude is the elapsed fraction of the attack window,
      so it lies in [0, 1] and reaches 1 at the window's end. */
  lemma AttackRamp(s: EnvelopeState, now: int)
    requires s.active && !s.released
    requires 0 <= now - s.triggerStart <= s.parameters.attack
    ensures var r := Sample(s, now);
      && r.next == s
      && r.amplitude == (now - s.triggerStart) as real / s.parameters.attack as real
      && 0.0 <= r.amplitude <= 1.0
      && (now - s.triggerStart == s.parameters.attack ==> r.amplitude == 1.0)
  {
    var a := s.parameters.attack as real;
    var e := (now - s.triggerStart) as real;
    assert e / a <= 1.0 by {
      assert e <= a;
      assert e / a <= a / a;
    }
  }

  /** The attack ramp strictly increases. */
  lemma AttackIncreases(s: EnvelopeState, t1: int, t2: int)
    requires s.active && !s.released
    requires s.triggerStart <= t1 < t2 <= s.triggerStart + s.parameters.attack
    ensures Sample(s, t1).amplitude < Sample(s, t2).amplitude
  {
    var a := s.parameters.attack as real;
    var e1 := (t1 - s.triggerStart) as real;
    var e2 := (t2 - s.triggerStart) as real;
    assert e2 / a - e1 / a == (e2 - e1) / a;
  }

  /** Decay (sustain not 0): the amplitude falls linearly from 1 towards
      the sustain level, reaching it at the end of the decay window; with
      a sustain level in [0, 1] it stays between the two. */
  lemma DecayRamp(s: EnvelopeState, now: int)
    requires s.active && !s.released && s.parameters.sustain != 0.0
    requires s.parameters.attack < now - s.triggerStart <= s.parameters.attack + s.parameters.decay
    ensures var p := s.parameters;
      var k := (now - s.triggerStart - p.attack) as real / p.decay as real;
      var r := Sample(s, now);
      && r.next == s
      && r.amplitude == 1.0 - k * (1.0 - p.sustain)
      && 0.0 < k <= 1.0
      && (now - s.triggerStart == p.attack + p.decay ==> r.amplitude == p.sustain)
      && (0.0 <= p.sustain <= 1.0 ==> p.sustain <= r.amplitude <= 1.0)
  {
    var p := s.parameters;
    var d := p.decay as real;
    var e := (now - s.triggerStart - p.attack) as real;
    var k := e / d;
    assert k <= 1.0 by {
      assert e / d <= d / d;
    }
    if 0.0 <= p.sustain <= 1.0 {
      assert 0.0 <= k * (1.0 - p.sustain) <= 1.0 - p.sustain by {
        assert (1.0 - k) * (1.0 - p.sustain) >= 0.0;
      }
    }
  }

  /** Sustain: past the decay window the amplitude holds the sustain level. */
  lemma SustainHolds(s: EnvelopeState, now: int)
    requires s.active && !s.released && s.parameters.sustain != 0.0
    requires now - s.triggerStart > s.parameters.attack + s.parameters.decay
    ensures Sample(s, now) == Reading(s.parameters.sustain, s)
  {
  }

  /** Release: from the captured amplitude, linearly down to 0 at the end
      of the release window. */
  lemma ReleaseRamp(s: EnvelopeState, now: int)
    requires s.active && s.released
    requires 0 <= now - s.triggerEnd <= s.parameters.release
    ensures var k := (now - s.triggerEnd) as real / s.parameters.release as real;
      var r := Sample(s, now);
      && r.next == s
      && r.amplitude == s.endAmplitude * (1.0 - k)
      && (now == s.triggerEnd ==> r.amplitude == s.endAmplitude)
      && (now - s.triggerEnd == s.parameters.release ==> r.amplitude == 0.0)
      && (s.endAmplitude >= 0.0 ==> 0.0 <= r.amplitude <= s.endAmplitude)
  {
    var d := s.parameters.release as real;
    var e := (now - s.triggerEnd) as real;
    var k := e / d;
    assert 0.0 <= k <= 1.0 by {
      assert e / d <= d / d;
    }
    if s.endAmplitude >= 0.0 {
      assert k * s.endAmplitude <= s.endAmplitude by {
        assert (1.0 - k) * s.endAmplitude >= 0.0;
      }
      assert k * s.endAmplitude >= 0.0;
    }
  }

  /** With a positive captured amplitude the release ramp strictly decreases. */
  lemma ReleaseDecreases(s: EnvelopeState, t1: int, t2: int)
    requires s.active && s.released && s.endAmplitude > 0.0
    requires s.triggerEnd <= t1 < t2 <= s.triggerEnd + s.parameters.release
    ensures Sample(s, t2).amplitude < Sample(s, t1).amplitude
  {
    var d := s.parameters.release as real;
    var k1 := (t1 - s.triggerEnd) as real / d;
    var k2 := (t2 - s.triggerEnd) as real / d;
    assert k2 - k1 == (t2 - t1) as real / d;
    assert k1 < k2;
    assert k2 * s.endAmplitude - k1 * s.endAmplitude == (k2 - k1) * s.endAmplitude;
  }

  /** Past the release window the call deactivates the envelope and reports 0. */
  lemma ReleaseExpires(s: EnvelopeState, now: int)
    requires s.active && s.released
    requires now - s.triggerEnd > s.parameters.release
    ensures Sample(s, now) == Reading(0.0, s.(active := false))
  {
  }

  /** With sustain 0 the source skips the decay and ramps towards release
      straight after the attack, with `k = (elapsed + attack) / release`. */
  lemma SustainZeroAsWritten(s: EnvelopeState, now: int)
    requires s.active && !s.released && s.parameters.sustain == 0.0
    requires now - s.triggerStart > s.parameters.attack
    ensures var p := s.parameters;
      var elapsed := now - s.triggerStart;
      var r := Sample(s, now);
      && (elapsed - p.attack <= p.release ==>
            r == Reading(1.0 - (elapsed + p.attack) as real / p.release as real, s))
      && (elapsed - p.attack > p.release ==> r == Reading(0.0, s.(active := false)))
  {
  }

  /** The sustain-0 branch as written reports a negative amplitude:
      attack 1 tick, release 100 ticks, read 101 ticks after the start. */
  lemma SustainZeroGoesNegative()
    ensures var s := EnvelopeState(EnvelopeParameters(1, 10, 0.0, 100), 0, 0, true, false, 0.0);
      Sample(s, 101).amplitude == -0.02 && Sample(s, 101).next.active
  {
    var s := EnvelopeState(EnvelopeParameters(1, 10, 0.0, 100), 0, 0, true, false, 0.0);
    assert (101 + 1) as real / 100 as real == 1.02;
  }

  /** `GetAmplitude` with the sustain-0 release ramp measured from the end
      of the attack, `k = (elapsed - attack) / release`, as the ramp is
      evidently meant to be. */
  function SampleIntended(s: EnvelopeState, now: int): Reading {
    var p := s.parameters;
    var elapsed := now - s.triggerStart;
    if s.active && !s.released && p.sustain == 0.0 && p.attack < elapsed <= p.attack + p.release then
      Reading(1.0 - (elapsed - p.attack) as real / p.release as real, s)
    else
      Sample(s, now)
  }

  /** With the intended ramp the sustain-0 amplitude starts from 1 where
      the attack ends, stays in [0, 1] and reaches exactly 0 at the end of
      the release window; everything else is as the source computes it. */
  lemma SustainZeroIntended(s: EnvelopeState, now: int)
    requires s.active && !s.released && s.parameters.sustain == 0.0
    requires s.parameters.attack <= now - s.triggerStart
    ensures var p := s.parameters;
      var elapsed := now - s.triggerStart;
      var r := SampleIntended(s, now);
      && (elapsed <= p.attack + p.release ==> 0.0 <= r.amplitude <= 1.0 && r.next == s)
      && (elapsed == p.attack ==> r.amplitude == 1.0)
      && (elapsed == p.attack + p.release ==> r.amplitude == 0.0)
      && (elapsed > p.attack + p.release ==> r == Reading(0.0, s.(active := false)))
  {
    var p := s.parameters;
    var elapsed := now - s.triggerStart;
    if p.attack < elapsed <= p.attack + p.release {
      var e := (elapsed - p.attack) as real;
      var d := p.release as real;
      UnitFraction(elapsed - p.attack, p.release);
      assert SampleIntended(s, now) == Reading(1.0 - e / d, s);
      if elapsed == p.attack + p.release {
        assert e == d;
      }
    } else if elapsed == p.attack {
      assert elapsed as real / p.attack as real == 1.0;
    }
  }

  /** A tick count `e` within a window of `d` ticks is a fraction of the
      window in [0, 1], positive when `e` is, and 1 at the window's end. */
  lemma UnitFraction(e: int, d: Ticks)
    requires 0 <= e <= d
    ensures 0.0 <= e as real / d as real <= 1.0
    ensures e > 0 ==> e as real / d as real > 0.0
    ensures e == d ==> e as real / d as real == 1.0
  {
    var q := e as real / d as real;
    assert q * d as real == e as real;
    assert (1.0 - q) * d as real == (d - e) as real;
  }

  lemma SampleIntendedAgrees(s: EnvelopeState, now: int)
    requires s.parameters.sustain != 0.0 || s.released || !s.active
    ensures SampleIntended(s, now) == Sample(s, now)
  {
  }

  /** `StopEnvelope` at `t0` on an envelope that is still sounding, then a
      read at `t` inside the release window: the captured level scaled by
      the fraction of the window still to go. */
  lemma StopThenRelease(s: EnvelopeState, t0: int, t: int)
    requires Sample(s, t0).next.active
    requires t0 <= t <= t0 + s.parameters.release
    ensures var captured := Sample(s, t0).amplitude;
      var k := (t - t0) as real / s.parameters.release as real;
      Sample(Stop(s, t0), t).amplitude == captured * (1.0 - k)
  {
    ReleaseFrom(Stop(s, t0), t, Sample(s, t0).amplitude, t0, s.parameters.release);
  }

  /** The release ramp of `StopThenRelease`, from a captured level `c`
      at end time `t0` over a window of `d` ticks. */
  lemma ReleaseFrom(u: EnvelopeState, t: int, c: real, t0: int, d: Ticks)
    requires u.active && u.released
    requires u.endAmplitude == c && u.triggerEnd == t0 && u.parameters.release == d
    requires t0 <= t <= t0 + d
    ensures Sample(u, t).amplitude == c * (1.0 - (t - t0) as real / d as real)
  {
    var k := (t - t0) as real / d as real;
    assert Sample(u, t).amplitude == c - k * c;
  }

  /** One call on the envelope's public interface. */
  datatype Event = Read(now: int) | StartAt(now: int) | StopAt(now: int) | Configure(p: EnvelopeParameters)

  function Step(s: EnvelopeState, e: Event): EnvelopeState {
    match e
    case Read(now) => Sample(s, now).next
    case StartAt(now) => Start(s, now)
    case StopAt(now) => Stop(s, now)
    case Configure(p) => s.(parameters := p)
  }

  function Replay(s: EnvelopeState, es: seq<Event>): EnvelopeState
    decreases |es|
  {
    if es == [] then s else Replay(Step(s, es[0]), es[1..])
  }

  /** Once inactive, the envelope stays inactive, and so reports 0 on every
      read, whatever reads, stops and parameter changes follow, until the
      next start. */
  lemma {:induction false} SilentUntilStart(s: EnvelopeState, es: seq<Event>, now: int)
    requires !s.active
    requires forall i :: 0 <= i < |es| ==> !es[i].StartAt?
    ensures !Replay(s, es).active
    ensures Sample(Replay(s, es), now).amplitude == 0.0
    decreases |es|
  {
    if es != [] {
      SilentUntilStart(Step(s, es[0]), es[1..], now);
    }
  }
}
