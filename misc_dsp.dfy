/** The stateful two-slot filters and the bit crusher (MiscDSP.h).

    Each C++ filter is a free function with function-static state: two
    history slots and a slot index `channel` that alternates between them.
    `SimpleLowPass` and `SimpleHighPass` move the index on every call, so
    on an interleaved stereo stream each channel has a slot of its own.
    `SimpleNotch` and `SimpleBandPass` move it only once the current deque
    is full, so during the first nine calls inputs of both channels share
    a slot; from call 9 on each slot again holds one channel
    (`DelayLineRunFromInit`, `DelayLineMixesChannels`).
    Each becomes a class whose fields are that static state and
    whose `Filter` method is one call.  `SimpleLowPass` and `SimpleHighPass`
    share one class (they differ only in the sign applied to the stored
    sample), and so do `SimpleNotch` and `SimpleBandPass`. */
module MiscDsp {

  /** Whether the stored sample is added (low-pass, notch) or subtracted
      (high-pass, band-pass). */
  datatype Tap = Sum | Difference

  /** The filter output: half the input plus or minus the stored sample,
      so it lies between the input and the signed stored sample, and
      samples in [-1, 1] give an output in [-1, 1]. */
  function Combine(tap: Tap, x: real, stored: real): (r: real)
    ensures var v := if tap == Sum then stored else -stored;
      (x <= v ==> x <= r <= v) && (v <= x ==> v <= r <= x)
    ensures -1.0 <= x <= 1.0 && -1.0 <= stored <= 1.0 ==> -1.0 <= r <= 1.0
  {
    match tap
    case Sum => (x + stored) * 0.5
    case Difference => (x + stored * -1.0) * 0.5
  }

  /** One output and the state after the call. */
  datatype Filtered<S> = Filtered(output: real, next: S)

  // ---------------------------------------------------------------------
  // SimpleLowPass / SimpleHighPass: one stored sample per slot.

  datatype LastSampleState = LastSampleState(last: seq<real>, channel: int)

  predicate ValidLastSample(s: LastSampleState) {
    |s.last| == 2 && 0 <= s.channel <= 1
  }

  /** The function-static initial values: both slots 0, slot index 0. */
  const LastSampleInit := LastSampleState([0.0, 0.0], 0)

  /** One call: combine with the current slot's stored sample, store the
      input there, move to the other slot. */
  function LastSampleStep(tap: Tap, s: LastSampleState, x: real): (r: Filtered<LastSampleState>)
    requires ValidLastSample(s)
    ensures ValidLastSample(r.next)
    ensures r.output == Combine(tap, x, s.last[s.channel])
    ensures r.next.last[s.channel] == x
    ensures r.next.last[1 - s.channel] == s.last[1 - s.channel]
    ensures r.next.channel == 1 - s.channel
  {
    Filtered(Combine(tap, x, s.last[s.channel]),
             LastSampleState(s.last[s.channel := x], (s.channel + 1) % 2))
  }

  /** The outputs of consecutive calls on the inputs `xs`, and the final state. */
  function LastSampleRun(tap: Tap, s: LastSampleState, xs: seq<real>): (r: (seq<real>, LastSampleState))
    requires ValidLastSample(s)
    ensures |r.0| == |xs| && ValidLastSample(r.1)
    decreases |xs|
  {
    if xs == [] then ([], s)
    else
      var prev := LastSampleRun(tap, s, xs[..|xs| - 1]);
      var f := LastSampleStep(tap, prev.1, xs[|xs| - 1]);
      (prev.0 + [f.output], f.next)
  }

  /** The input `k` calls before call `n`, or 0 before the stream began. */
  function Lag(xs: seq<real>, n: nat, k: nat): real
    requires n <= |xs| && k >= 1
  {
    if k <= n then xs[n - k] else 0.0
  }

  /** From the initial state, after the inputs `xs` the slot index is the
      parity of the call count, the current slot holds the input two calls
      back and the other slot the latest input (0 before the stream began). */
  lemma {:induction false} LastSampleStateFromInit(tap: Tap, xs: seq<real>)
    ensures LastSampleRun(tap, LastSampleInit, xs).1.channel == |xs| % 2
    ensures LastSampleRun(tap, LastSampleInit, xs).1.last[|xs| % 2] == Lag(xs, |xs|, 2)
    ensures LastSampleRun(tap, LastSampleInit, xs).1.last[(|xs| + 1) % 2] == Lag(xs, |xs|, 1)
    decreases |xs|
  {
    if xs != [] {
      var m := |xs| - 1;
      var front := xs[..m];
      LastSampleStateFromInit(tap, front);
      var prev := LastSampleRun(tap, LastSampleInit, front);
      assert LastSampleRun(tap, LastSampleInit, xs).1 == LastSampleStep(tap, prev.1, xs[m]).next;
      assert Lag(front, m, 1) == Lag(xs, m + 1, 2);
    }
  }

  /** The outputs of a run over a prefix are a prefix of the outputs. */
  lemma {:induction false} LastSampleRunPrefix(tap: Tap, s: LastSampleState, xs: seq<real>, k: nat)
    requires ValidLastSample(s) && k <= |xs|
    ensures LastSampleRun(tap, s, xs[..k]).0 == LastSampleRun(tap, s, xs).0[..k]
    decreases |xs|
  {
    if k < |xs| {
      var m := |xs| - 1;
      LastSampleRunPrefix(tap, s, xs[..m], k);
      assert xs[..m][..k] == xs[..k];
      assert LastSampleRun(tap, s, xs).0[..m] == LastSampleRun(tap, s, xs[..m]).0;
    } else {
      assert xs[..k] == xs;
    }
  }

  /** From the initial state, call `n` combines input `n` with input
      `n - 2`: on an interleaved stereo stream, each sample with the
      previous sample of the same channel (0 before the first). */
  lemma LastSampleRunFromInit(tap: Tap, xs: seq<real>, n: nat)
    requires n < |xs|
    ensures LastSampleRun(tap, LastSampleInit, xs).0[n] == Combine(tap, xs[n], Lag(xs, n, 2))
  {
    var front := xs[..n];
    LastSampleStateFromInit(tap, front);
    LastSampleRunPrefix(tap, LastSampleInit, xs, n + 1);
    assert xs[..n + 1][..n] == front;
    assert Lag(front, n, 2) == Lag(xs, n, 2);
  }

  class LastSampleFilter {
    const tap: Tap
    const lastSample: array<real>
    var channel: int

    predicate Valid()
      reads this
    {
      lastSample.Length == 2 && 0 <= channel <= 1
    }

    function State(): LastSampleState
      reads this, lastSample
    {
      LastSampleState(lastSample[..], channel)
    }

    /** `SimpleLowPass`'s static state. */
    constructor LowPass()
      ensures Valid() && fresh(lastSample)
      ensures tap == Sum && State() == LastSampleInit
    {
      tap := Sum;
      lastSample := new real[2](_ => 0.0);
      channel := 0;
      new;
      assert lastSample[..] == [0.0, 0.0];
    }

    /** `SimpleHighPass`'s static state. */
    constructor HighPass()
      ensures Valid() && fresh(lastSample)
      ensures tap == Difference && State() == LastSampleInit
    {
      tap := Difference;
      lastSample := new real[2](_ => 0.0);
      channel := 0;
      new;
      assert lastSample[..] == [0.0, 0.0];
    }

    /** One call of `SimpleLowPass` / `SimpleHighPass`. */
    method Filter(currentSample: real) returns (y: real)
      requires Valid()
      modifies this, lastSample
      ensures Valid()
      ensures Filtered(y, State()) == LastSampleStep(tap, old(State()), currentSample)
    {
      var passed := if tap == Sum then currentSample + lastSample[channel]
                    else currentSample + lastSample[channel] * -1.0;
      lastSample[channel] := currentSample;
      channel := channel + 1;
      channel := channel % 2;
      y := passed * 0.5;
    }
  }

  // ---------------------------------------------------------------------
  // SimpleNotch / SimpleBandPass: a deque of up to two samples per slot.

  /** `history[c]` is slot `c`'s deque, front first. */
  datatype DelayLineState = DelayLineState(history: seq<seq<real>>, channel: int)

  predicate ValidDelayLine(s: DelayLineState) {
    && |s.history| == 2 && 0 <= s.channel <= 1
    && |s.history[0]| <= 2 && |s.history[1]| <= 2
  }

  /** Both slots hold two samples: the filter is past its warm-up. */
  predicate Full(s: DelayLineState) {
    |s.history| == 2 && |s.history[0]| == 2 && |s.history[1]| == 2
  }

  /** The function-static initial values: two empty deques, slot index 0. */
  const DelayLineInit := DelayLineState([[], []], 0)

  /** One call.  While the current slot holds fewer than two samples the
      input is pushed to its front and returned unchanged, and the slot
      index stays.  Otherwise the input is combined with the oldest sample
      (the back), pushed to the front, the back is popped, and the slot
      index moves on. */
  function DelayLineStep(tap: Tap, s: DelayLineState, x: real): (r: Filtered<DelayLineState>)
    requires ValidDelayLine(s)
    ensures ValidDelayLine(r.next)
    ensures r.next.history[1 - s.channel] == s.history[1 - s.channel]
    ensures |s.history[s.channel]| < 2 ==>
      && r.output == x
      && r.next.channel == s.channel
      && r.next.history[s.channel] == [x] + s.history[s.channel]
    ensures |s.history[s.channel]| == 2 ==>
      && r.output == Combine(tap, x, s.history[s.channel][1])
      && r.next.channel == 1 - s.channel
      && r.next.history[s.channel] == [x, s.history[s.channel][0]]
    ensures Full(s) ==> Full(r.next)
  {
    var d := s.history[s.channel];
    if |d| < 2 then
      Filtered(x, s.(history := s.history[s.channel := [x] + d]))
    else
      var pushed := [x] + d;
      Filtered(Combine(tap, x, d[|d| - 1]),
               DelayLineState(s.history[s.channel := pushed[..|pushed| - 1]], (s.channel + 1) % 2))
  }

  function DelayLineRun(tap: Tap, s: DelayLineState, xs: seq<real>): (r: (seq<real>, DelayLineState))
    requires ValidDelayLine(s)
    ensures |r.0| == |xs| && ValidDelayLine(r.1)
    decreases |xs|
  {
    if xs == [] then ([], s)
    else
      var prev := DelayLineRun(tap, s, xs[..|xs| - 1]);
      var f := DelayLineStep(tap, prev.1, xs[|xs| - 1]);
      (prev.0 + [f.output], f.next)
  }

  /** Once both deques are full they stay full, whatever follows. */
  lemma {:induction false} FullStaysFull(tap: Tap, s: DelayLineState, xs: seq<real>)
    requires ValidDelayLine(s) && Full(s)
    ensures Full(DelayLineRun(tap, s, xs).1)
    decreases |xs|
  {
    if xs != [] {
      FullStaysFull(tap, s, xs[..|xs| - 1]);
    }
  }

  /** Unfolds one call at the end of a run. */
  lemma DelayLineRunSnoc(tap: Tap, s: DelayLineState, xs: seq<real>, x: real)
    requires ValidDelayLine(s)
    ensures var prev := DelayLineRun(tap, s, xs);
      var f := DelayLineStep(tap, prev.1, x);
      DelayLineRun(tap, s, xs + [x]) == (prev.0 + [f.output], f.next)
  {
    assert (xs + [x])[..|xs|] == xs;
  }

  /** Two delay-line states with the same two deques and slot index are equal. */
  lemma SameDelayLine(s: DelayLineState, t: DelayLineState)
    requires |s.history| == 2 && |t.history| == 2
    requires s.history[0] == t.history[0] && s.history[1] == t.history[1]
    requires s.channel == t.channel
    ensures s == t
  {
  }

  /** The first two inputs both go to slot 0 and come out unchanged. */
  lemma WarmUpSlot0(tap: Tap, x0: real, x1: real)
    ensures DelayLineRun(tap, DelayLineInit, [x0, x1])
         == ([x0, x1], DelayLineState([[x1, x0], []], 0))
  {
    var s1 := DelayLineState([[x0], []], 0);
    var f0 := DelayLineStep(tap, DelayLineInit, x0);
    assert [x0] + [] == [x0];
    SameDelayLine(f0.next, s1);
    DelayLineRunSnoc(tap, DelayLineInit, [], x0);
    assert [] + [x0] == [x0];
    var f1 := DelayLineStep(tap, s1, x1);
    assert [x1] + [x0] == [x1, x0];
    SameDelayLine(f1.next, DelayLineState([[x1, x0], []], 0));
    DelayLineRunSnoc(tap, DelayLineInit, [x0], x1);
    assert [x0] + [x1] == [x0, x1];
  }

  /** The third input is combined with the first and the slot index moves
      to 1. */
  lemma WarmUpFirstOutput(tap: Tap, x0: real, x1: real, x2: real)
    ensures DelayLineRun(tap, DelayLineInit, [x0, x1, x2])
         == ([x0, x1, Combine(tap, x2, x0)], DelayLineState([[x2, x1], []], 1))
  {
    WarmUpSlot0(tap, x0, x1);
    var f := DelayLineStep(tap, DelayLineState([[x1, x0], []], 0), x2);
    SameDelayLine(f.next, DelayLineState([[x2, x1], []], 1));
    DelayLineRunSnoc(tap, DelayLineInit, [x0, x1], x2);
    assert [x0, x1] + [x2] == [x0, x1, x2];
    assert [x0, x1] + [Combine(tap, x2, x0)] == [x0, x1, Combine(tap, x2, x0)];
  }

  /** The fourth input starts filling slot 1 and comes out unchanged. */
  lemma WarmUpSlot1(tap: Tap, x0: real, x1: real, x2: real, x3: real)
    ensures DelayLineRun(tap, DelayLineInit, [x0, x1, x2, x3])
         == ([x0, x1, Combine(tap, x2, x0), x3], DelayLineState([[x2, x1], [x3]], 1))
  {
    WarmUpFirstOutput(tap, x0, x1, x2);
    var f := DelayLineStep(tap, DelayLineState([[x2, x1], []], 1), x3);
    assert [x3] + [] == [x3];
    SameDelayLine(f.next, DelayLineState([[x2, x1], [x3]], 1));
    DelayLineRunSnoc(tap, DelayLineInit, [x0, x1, x2], x3);
    assert [x0, x1, x2] + [x3] == [x0, x1, x2, x3];
    assert [x0, x1, Combine(tap, x2, x0)] + [x3] == [x0, x1, Combine(tap, x2, x0), x3];
  }

  /** The whole warm-up from the initial state: after five calls both
      deques are full, the fifth input came out unchanged, and the slot
      index is 1. */
  lemma DelayLineWarmUp(tap: Tap, x0: real, x1: real, x2: real, x3: real, x4: real)
    ensures var r := DelayLineRun(tap, DelayLineInit, [x0, x1, x2, x3, x4]);
      && r.0 == [x0, x1, Combine(tap, x2, x0), x3, x4]
      && r.1 == DelayLineState([[x2, x1], [x4, x3]], 1)
      && Full(r.1)
  {
    WarmUpSlot1(tap, x0, x1, x2, x3);
    var f := DelayLineStep(tap, DelayLineState([[x2, x1], [x3]], 1), x4);
    assert [x4] + [x3] == [x4, x3];
    SameDelayLine(f.next, DelayLineState([[x2, x1], [x4, x3]], 1));
    DelayLineRunSnoc(tap, DelayLineInit, [x0, x1, x2, x3], x4);
    assert [x0, x1, x2, x3] + [x4] == [x0, x1, x2, x3, x4];
    assert [x0, x1, Combine(tap, x2, x0), x3] + [x4] == [x0, x1, Combine(tap, x2, x0), x3, x4];
  }

  // ---------------------------------------------------------------------
  // The notch/band-pass outputs for any input stream.

  /** The deques after `n` calls from the initial state once the warm-up
      is over: the slot used next holds the inputs two and four calls back,
      the other slot the inputs one and three calls back, and the slot
      index is the parity of `n`. */
  function SteadyDelayLine(xs: seq<real>, n: nat): (s: DelayLineState)
    requires 4 <= n <= |xs|
    ensures ValidDelayLine(s) && Full(s) && s.channel == n % 2
    ensures s.history[n % 2] == [xs[n - 2], xs[n - 4]]
    ensures s.history[1 - n % 2] == [xs[n - 1], xs[n - 3]]
  {
    if n % 2 == 0 then DelayLineState([[xs[n - 2], xs[n - 4]], [xs[n - 1], xs[n - 3]]], 0)
    else DelayLineState([[xs[n - 1], xs[n - 3]], [xs[n - 2], xs[n - 4]]], 1)
  }

  /** The state after the first `n` inputs of `xs`, from the initial
      state.  The warm-up fills slot 0 with two inputs before the slot
      index first moves, so the two slots get out of step with the parity
      of the call count until call 9. */
  function DelayLineAfter(xs: seq<real>, n: nat): (s: DelayLineState)
    requires n <= |xs|
    ensures ValidDelayLine(s)
  {
    if n == 0 then DelayLineInit
    else if n == 1 then DelayLineState([[xs[0]], []], 0)
    else if n == 2 then DelayLineState([[xs[1], xs[0]], []], 0)
    else if n == 3 then DelayLineState([[xs[2], xs[1]], []], 1)
    else if n == 4 then DelayLineState([[xs[2], xs[1]], [xs[3]]], 1)
    else if n == 5 then DelayLineState([[xs[2], xs[1]], [xs[4], xs[3]]], 1)
    else if n == 6 then DelayLineState([[xs[2], xs[1]], [xs[5], xs[4]]], 0)
    else if n == 7 then DelayLineState([[xs[6], xs[2]], [xs[5], xs[4]]], 1)
    else if n == 8 then DelayLineState([[xs[6], xs[2]], [xs[7], xs[5]]], 0)
    else SteadyDelayLine(xs, n)
  }

  /** Calls 0, 1, 3 and 4 from the initial state push into a deque that
      is not yet full and pass their input through. */
  predicate PassesThrough(n: nat) {
    n == 0 || n == 1 || n == 3 || n == 4
  }

  /** The earlier call whose input call `n` is combined with: four calls
      back from call 9 on, and out of that pattern during the warm-up. */
  function Partner(n: nat): (k: nat)
    requires !PassesThrough(n)
    ensures k < n
    ensures n >= 9 ==> k == n - 4
  {
    if n == 2 then 0 else if n == 5 then 3 else if n == 6 then 1
    else if n == 7 then 4 else if n == 8 then 2 else n - 4
  }

  /** Output `n` from the initial state, in closed form. */
  function DelayLineOutput(tap: Tap, xs: seq<real>, n: nat): real
    requires n < |xs|
  {
    if PassesThrough(n) then xs[n] else Combine(tap, xs[n], xs[Partner(n)])
  }

  /** A full slot combines with its back, pushes the input and moves on:
      from the steady state after `n` calls, call `n` gives the steady
      state after `n + 1` calls. */
  lemma SteadyStep(tap: Tap, xs: seq<real>, n: nat)
    requires 4 <= n < |xs|
    ensures DelayLineStep(tap, SteadyDelayLine(xs, n), xs[n])
         == Filtered(Combine(tap, xs[n], xs[n - 4]), SteadyDelayLine(xs, n + 1))
  {
    var s := SteadyDelayLine(xs, n);
    var f := DelayLineStep(tap, s, xs[n]);
    var t := SteadyDelayLine(xs, n + 1);
    assert f.next.history[n % 2] == t.history[n % 2];
    assert f.next.history[1 - n % 2] == t.history[1 - n % 2];
    SameDelayLine(f.next, t);
  }

  /** One call from the state after `n` inputs gives output `n` and the
      state after `n + 1` inputs. */
  lemma DelayLineStepAfter(tap: Tap, xs: seq<real>, n: nat)
    requires n < |xs|
    ensures DelayLineStep(tap, DelayLineAfter(xs, n), xs[n])
         == Filtered(DelayLineOutput(tap, xs, n), DelayLineAfter(xs, n + 1))
  {
    var s := DelayLineAfter(xs, n);
    var f := DelayLineStep(tap, s, xs[n]);
    var t := DelayLineAfter(xs, n + 1);
    if n >= 9 {
      SteadyStep(tap, xs, n);
    } else if n == 8 {
      assert f.next.history[0] == [xs[8], xs[6]];
      SameDelayLine(f.next, t);
    } else {
      assert [xs[n]] + [] == [xs[n]];
      assert n == 1 ==> [xs[1]] + [xs[0]] == [xs[1], xs[0]];
      assert n == 4 ==> [xs[4]] + [xs[3]] == [xs[4], xs[3]];
      assert f.next.history[0] == t.history[0];
      assert f.next.history[1] == t.history[1];
      SameDelayLine(f.next, t);
    }
  }

  /** From the initial state, for any input stream, the final state is
      `DelayLineAfter` and output `n` is `DelayLineOutput`: from call 9 on,
      the input four calls back; before that, the warm-up pattern. */
  lemma {:induction false} DelayLineRunFromInit(tap: Tap, xs: seq<real>)
    ensures DelayLineRun(tap, DelayLineInit, xs).1 == DelayLineAfter(xs, |xs|)
    ensures forall n :: 0 <= n < |xs| ==>
      DelayLineRun(tap, DelayLineInit, xs).0[n] == DelayLineOutput(tap, xs, n)
    decreases |xs|
  {
    if xs != [] {
      var m := |xs| - 1;
      var front := xs[..m];
      DelayLineRunFromInit(tap, front);
      assert DelayLineAfter(front, m) == DelayLineAfter(xs, m);
      assert forall n :: 0 <= n < m ==> DelayLineOutput(tap, front, n) == DelayLineOutput(tap, xs, n);
      DelayLineStepAfter(tap, xs, m);
    }
  }

  // ---------------------------------------------------------------------
  // The delay-line warm-up mixes the channels of an interleaved stream.

  /** On an interleaved stereo stream (even calls left, odd calls right),
      calls 6 and 7 combine samples of different channels: input 6 (left)
      with input 1 (right), input 7 (right) with input 4 (left).  With a
      silent left channel and a right channel at 1, the notch gives 0.5 on
      the left at call 6, where the corrected step gives 0. */
  lemma DelayLineMixesChannels(tap: Tap, xs: seq<real>)
    requires |xs| >= 8
    ensures DelayLineRun(tap, DelayLineInit, xs).0[6] == Combine(tap, xs[6], xs[1])
    ensures DelayLineRun(tap, DelayLineInit, xs).0[7] == Combine(tap, xs[7], xs[4])
    ensures var ys := [0.0, 1.0, 0.0, 1.0, 0.0, 1.0, 0.0, 1.0];
      && DelayLineRun(Sum, DelayLineInit, ys).0[6] == 0.5
      && DelayLineRunIntended(Sum, DelayLineInit, ys).0[6] == 0.0
  {
    DelayLineRunFromInit(tap, xs);
    var ys := [0.0, 1.0, 0.0, 1.0, 0.0, 1.0, 0.0, 1.0];
    DelayLineRunFromInit(Sum, ys);
    DelayLineRunIntendedFromInit(Sum, ys);
  }

  /** The step with the slot index moving on every call, also while a deque
      is filling, so that each slot only ever sees every other input. */
  function DelayLineStepIntended(tap: Tap, s: DelayLineState, x: real): (r: Filtered<DelayLineState>)
    requires ValidDelayLine(s)
    ensures ValidDelayLine(r.next)
    ensures r.next.channel == 1 - s.channel
    ensures r.next.history[1 - s.channel] == s.history[1 - s.channel]
    ensures |s.history[s.channel]| < 2 ==>
      r.output == x && r.next.history[s.channel] == [x] + s.history[s.channel]
    ensures |s.history[s.channel]| == 2 ==> r == DelayLineStep(tap, s, x)
  {
    var d := s.history[s.channel];
    if |d| < 2 then
      Filtered(x, DelayLineState(s.history[s.channel := [x] + d], (s.channel + 1) % 2))
    else
      DelayLineStep(tap, s, x)
  }

  function DelayLineRunIntended(tap: Tap, s: DelayLineState, xs: seq<real>): (r: (seq<real>, DelayLineState))
    requires ValidDelayLine(s)
    ensures |r.0| == |xs| && ValidDelayLine(r.1)
    decreases |xs|
  {
    if xs == [] then ([], s)
    else
      var prev := DelayLineRunIntended(tap, s, xs[..|xs| - 1]);
      var f := DelayLineStepIntended(tap, prev.1, xs[|xs| - 1]);
      (prev.0 + [f.output], f.next)
  }

  /** The state after the first `n` inputs with the corrected step: the
      warm-up alternates slots, and from 4 inputs on it is the steady state. */
  function DelayLineAfterIntended(xs: seq<real>, n: nat): (s: DelayLineState)
    requires n <= |xs|
    ensures ValidDelayLine(s)
  {
    if n == 0 then DelayLineInit
    else if n == 1 then DelayLineState([[xs[0]], []], 1)
    else if n == 2 then DelayLineState([[xs[0]], [xs[1]]], 0)
    else if n == 3 then DelayLineState([[xs[2], xs[0]], [xs[1]]], 1)
    else SteadyDelayLine(xs, n)
  }

  /** Output `n` of the corrected step from the initial state: the input
      itself for the first four calls, then the input combined with the
      input four calls back. */
  function DelayLineOutputIntended(tap: Tap, xs: seq<real>, n: nat): real
    requires n < |xs|
  {
    if n < 4 then xs[n] else Combine(tap, xs[n], xs[n - 4])
  }

  lemma DelayLineStepIntendedAfter(tap: Tap, xs: seq<real>, n: nat)
    requires n < |xs|
    ensures DelayLineStepIntended(tap, DelayLineAfterIntended(xs, n), xs[n])
         == Filtered(DelayLineOutputIntended(tap, xs, n), DelayLineAfterIntended(xs, n + 1))
  {
    var s := DelayLineAfterIntended(xs, n);
    var f := DelayLineStepIntended(tap, s, xs[n]);
    var t := DelayLineAfterIntended(xs, n + 1);
    if n >= 4 {
      SteadyStep(tap, xs, n);
    } else {
      assert [xs[n]] + [] == [xs[n]];
      assert n == 2 ==> [xs[2]] + [xs[0]] == [xs[2], xs[0]];
      assert n == 3 ==> [xs[3]] + [xs[1]] == [xs[3], xs[1]];
      assert f.next.history[0] == t.history[0];
      assert f.next.history[1] == t.history[1];
      SameDelayLine(f.next, t);
    }
  }

  /** With the corrected step, from the initial state and for any input
      stream, the first four inputs pass through and every later output
      combines its input with the input four calls back: on an interleaved
      stereo stream, the same channel two frames back. */
  lemma {:induction false} DelayLineRunIntendedFromInit(tap: Tap, xs: seq<real>)
    ensures DelayLineRunIntended(tap, DelayLineInit, xs).1 == DelayLineAfterIntended(xs, |xs|)
    ensures forall n :: 0 <= n < |xs| ==>
      DelayLineRunIntended(tap, DelayLineInit, xs).0[n] == DelayLineOutputIntended(tap, xs, n)
    decreases |xs|
  {
    if xs != [] {
      var m := |xs| - 1;
      var front := xs[..m];
      DelayLineRunIntendedFromInit(tap, front);
      assert DelayLineAfterIntended(front, m) == DelayLineAfterIntended(xs, m);
      assert forall n :: 0 <= n < m ==> DelayLineOutputIntended(tap, front, n) == DelayLineOutputIntended(tap, xs, n);
      DelayLineStepIntendedAfter(tap, xs, m);
    }
  }

  /** From call 9 on, the step as written and the corrected step give the
      same output and reach the same state: the two differ only in the
      warm-up. */
  lemma DelayLineIntendedAgrees(tap: Tap, xs: seq<real>, n: nat)
    requires 9 <= n < |xs|
    ensures DelayLineRun(tap, DelayLineInit, xs).0[n] == DelayLineRunIntended(tap, DelayLineInit, xs).0[n]
    ensures DelayLineRun(tap, DelayLineInit, xs[..n]).1 == DelayLineRunIntended(tap, DelayLineInit, xs[..n]).1
  {
    DelayLineRunFromInit(tap, xs);
    DelayLineRunIntendedFromInit(tap, xs);
    DelayLineRunFromInit(tap, xs[..n]);
    DelayLineRunIntendedFromInit(tap, xs[..n]);
  }

  class DelayLineFilter {
    const tap: Tap
    const samples: array<seq<real>>
    var channel: int

    predicate Valid()
      reads this, samples
    {
      samples.Length == 2 && 0 <= channel <= 1
      && |samples[0]| <= 2 && |samples[1]| <= 2
    }

    function State(): DelayLineState
      reads this, samples
    {
      DelayLineState(samples[..], channel)
    }

    /** `SimpleNotch`'s static state. */
    constructor Notch()
      ensures Valid() && fresh(samples)
      ensures tap == Sum && State() == DelayLineInit
    {
      tap := Sum;
      samples := new seq<real>[2](_ => []);
      channel := 0;
      new;
      assert samples[..] == [[], []];
    }

    /** `SimpleBandPass`'s static state. */
    constructor BandPass()
      ensures Valid() && fresh(samples)
      ensures tap == Difference && State() == DelayLineInit
    {
      tap := Difference;
      samples := new seq<real>[2](_ => []);
      channel := 0;
      new;
      assert samples[..] == [[], []];
    }

    /** One call of `SimpleNotch` / `SimpleBandPass`. */
    method Filter(currentSample: real) returns (y: real)
      requires Valid()
      modifies this, samples
      ensures Valid()
      ensures Filtered(y, State()) == DelayLineStep(tap, old(State()), currentSample)
    {
      var deque := samples[channel];
      if |deque| < 2 {
        samples[channel] := [currentSample] + deque;
        return currentSample;
      }
      var oldest := deque[|deque| - 1];
      var passed := if tap == Sum then currentSample + oldest else currentSample + oldest * -1.0;
      deque := [currentSample] + deque;
      deque := deque[..|deque| - 1];
      samples[channel] := deque;
      channel := channel + 1;
      channel := channel % 2;
      y := passed * 0.5;
    }
  }

  // ---------------------------------------------------------------------
  // BitCrush

  /** 2 to the power `e`, for any integer `e`. */
  function Pow2(e: int): (r: real)
    ensures r > 0.0
    decreases if e < 0 then -e else e
  {
    if e == 0 then 1.0
    else if e > 0 then 2.0 * Pow2(e - 1)
    else Pow2(e + 1) / 2.0
  }

  /** `ceil`. */
  function Ceil(y: real): (c: int)
    ensures y <= c as real < y + 1.0
  {
    -((-y).Floor)
  }

  /** `r` is the multiple of 1 / scale that `ceil(x * scale) / scale`
      names: on the grid, not below `x` and less than one step above it. */
  predicate RoundedUp(x: real, r: real, scale: real)
    requires scale > 0.0
  {
    && r * scale == Ceil(x * scale) as real
    && x <= r < x + 1.0 / scale
  }

  /** The input rounded up to the next multiple of 1 / scale. */
  function RoundUp(x: real, scale: real): (r: real)
    requires scale > 0.0
    ensures RoundedUp(x, r, scale)
  {
    var c := Ceil(x * scale);
    RoundedUpOnGrid(x, scale, c);
    c as real / scale
  }

  /** `BitCrush` with an integer bit depth: rounds up to the grid of step
      1 / 2^(bits-1). */
  function BitCrush(x: real, bits: int): (r: real)
    ensures RoundedUp(x, r, Pow2(bits - 1))
  {
    RoundUp(x, Pow2(bits - 1))
  }

  /** Dividing an integer `c` with `x * scale <= c < x * scale + 1` by the
      positive `scale` lands on the grid, at or above `x` and less than one
      step above it. */
  lemma RoundedUpOnGrid(x: real, scale: real, c: int)
    requires scale > 0.0
    requires x * scale <= c as real < x * scale + 1.0
    ensures (c as real / scale) * scale == c as real
    ensures x <= c as real / scale < x + 1.0 / scale
  {
    var q := c as real / scale;
    assert q * scale == c as real;
    QuotientSign(c as real - x * scale, scale);
    assert (c as real - x * scale) / scale == q - x;
    QuotientSign(x * scale + 1.0 - c as real, scale);
    assert (x * scale + 1.0 - c as real) / scale == x + 1.0 / scale - q;
  }

  lemma QuotientSign(a: real, s: real)
    requires s > 0.0
    ensures a >= 0.0 ==> a / s >= 0.0
    ensures a > 0.0 ==> a / s > 0.0
  {
  }

  lemma RoundUpUnfold(y: real, scale: real)
    requires scale > 0.0
    ensures RoundUp(y, scale) == Ceil(y * scale) as real / scale
  {
  }

  /** Rounding up a value already on the grid leaves it alone. */
  lemma RoundUpIdempotent(x: real, scale: real)
    requires scale > 0.0
    ensures RoundUp(RoundUp(x, scale), scale) == RoundUp(x, scale)
  {
    var r := RoundUp(x, scale);
    var n := Ceil(x * scale);
    assert r == n as real / scale;
    assert Ceil(r * scale) == n;
    RoundUpUnfold(r, scale);
  }

  /** Crushing twice at the same depth is the same as crushing once. */
  lemma BitCrushIdempotent(x: real, bits: int)
    ensures BitCrush(BitCrush(x, bits), bits) == BitCrush(x, bits)
  {
    RoundUpIdempotent(x, Pow2(bits - 1));
  }
}
