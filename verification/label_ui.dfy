/**
 * A text label with a "pulse" effect: the target scale dips by a factor and a
 * timer later writes back the value it captured when the pulse started. The
 * timer is an explicit event here: `FireTimeout` is the timer's callback.
 */
module Labels {

  const DEFAULT_DOWN_SCALE: real := 0.95
  const DEFAULT_DURATION_MS: real := 100.0

  /** A scheduled write-back: the target captured at the pulse, and its delay. */
  datatype Timeout = Timeout(restore: real, delayMs: real)

  /** The label's animated state: its target scale and the timers not yet fired. */
  datatype PulseState = PulseState(target: real, pending: seq<Timeout>)

  /** What `pulseScale` does to the state. */
  function Pulse(s: PulseState, downScale: real, durationMs: real): (r: PulseState)
    ensures r.target == s.target * downScale
    ensures |r.pending| == |s.pending| + 1 && r.pending[..|s.pending|] == s.pending
    ensures r.pending[|s.pending|].restore == s.target
  {
    PulseState(s.target * downScale, s.pending + [Timeout(s.target, durationMs)])
  }

  /** What the callback of the `i`-th pending timer does to the state. */
  function Fire(s: PulseState, i: nat): (r: PulseState)
    requires i < |s.pending|
    ensures r.target == s.pending[i].restore
    ensures |r.pending| == |s.pending| - 1
    ensures forall j :: 0 <= j < i ==> r.pending[j] == s.pending[j]
    ensures forall j :: i < j < |s.pending| ==> r.pending[j - 1] == s.pending[j]
  {
    PulseState(s.pending[i].restore, s.pending[..i] + s.pending[i + 1..])
  }

  /** A single pulse followed by its timer leaves the target where it was. */
  lemma PulseThenFireRestores(s: PulseState, downScale: real, durationMs: real)
    ensures Fire(Pulse(s, downScale, durationMs), |s.pending|) == s
  {
    assert (s.pending + [Timeout(s.target, durationMs)])[..|s.pending|] == s.pending;
  }

  /**
   * Two overlapping pulses: whichever timer fires last decides the target.
   * When the first pulse's timer fires first (as equal delays do), the label
   * keeps the dipped value of the first pulse instead of its original target.
   */
  lemma {:induction false} OverlappingPulsesLastFireWins(s: PulseState, d1: real, d2: real, ms: real)
    requires s.pending == []
    ensures var two := Pulse(Pulse(s, d1, ms), d2, ms);
            && Fire(Fire(two, 0), 0).target == s.target * d1
            && Fire(Fire(two, 1), 0).target == s.target
            && Fire(Fire(two, 0), 0).pending == [] && Fire(Fire(two, 1), 0).pending == []
  {
    var one := Pulse(s, d1, ms);
    var two := Pulse(one, d2, ms);
    assert one.pending == [Timeout(s.target, ms)];
    assert two.pending == [Timeout(s.target, ms), Timeout(s.target * d1, ms)];
  }

  class LabelUI {
    var targetScale: real
    var currentScale: real
    const animationSpeed: real
    var pending: seq<Timeout>

    /** The render scale is never animated: no frame callback is ever registered. */
    ghost predicate Valid()
      reads this
    {
      currentScale == 1.0
    }

    function State(): PulseState
      reads this
    {
      PulseState(targetScale, pending)
    }

    constructor ()
      ensures Valid()
      ensures targetScale == 1.0 && pending == [] && animationSpeed == 0.15
    {
      targetScale := 1.0;
      currentScale := 1.0;
      animationSpeed := 0.15;
      pending := [];
    }

    /** Dips the target and schedules the write-back of the value it had. */
    method PulseScale(downScale: real := DEFAULT_DOWN_SCALE, durationMs: real := DEFAULT_DURATION_MS)
      requires Valid()
      modifies this
      ensures Valid()
      ensures State() == Pulse(old(State()), downScale, durationMs)
    {
      var originalScale := targetScale;
      targetScale := originalScale * downScale;
      pending := pending + [Timeout(originalScale, durationMs)];
    }

    /** The `i`-th pending timer fires: it writes back the target it captured. */
    method FireTimeout(i: nat)
      requires Valid()
      requires i < |pending|
      modifies this
      ensures Valid()
      ensures State() == Fire(old(State()), i)
    {
      targetScale := pending[i].restore;
      pending := pending[..i] + pending[i + 1..];
    }
  }
}
