/** The box-breathing exercise (the `Meditation` component, which lives in
    components/UserProfile.tsx): while active, a once-a-second tick advances a
    timer modulo 16 and the phase follows it, four ticks each of Inhale, Hold,
    Exhale, Hold. */
module Meditation {

  datatype Phase = Inhale | Hold | Exhale | Wait

  const CycleLength: nat := 16

  /** `(t + 1) % 16` on the timer, which never goes negative. */
  function NextTimer(t: nat): (r: nat)
    ensures r < CycleLength
    ensures t < CycleLength - 1 ==> r == t + 1
    ensures t == CycleLength - 1 ==> r == 0
  {
    (t + 1) % CycleLength
  }

  /** The phase a timer value stands for while the exercise runs. */
  function PhaseAt(t: nat): (p: Phase)
    requires t < CycleLength
    ensures p != Wait
    ensures p == Inhale <==> t < 4
    ensures p == Hold <==> 4 <= t < 8 || 12 <= t
    ensures p == Exhale <==> 8 <= t < 12
  {
    if t < 4 then Inhale else if t < 8 then Hold else if t < 12 then Exhale else Hold
  }

  /** The timer after n ticks. */
  function TimerAfter(t: nat, n: nat): nat {
    if n == 0 then t else NextTimer(TimerAfter(t, n - 1))
  }

  /** n ticks from a timer in range add n modulo 16. */
  lemma {:induction false} TimerAfterAddsModulo(t: nat, n: nat)
    requires t < CycleLength
    ensures TimerAfter(t, n) == (t + n) % CycleLength
  {
    if n > 0 {
      TimerAfterAddsModulo(t, n - 1);
      var prev := (t + n - 1) % CycleLength;
      assert (prev + 1) % CycleLength == (t + n) % CycleLength;
    }
  }

  /** A full cycle of 16 ticks brings the timer, and so the phase, back. */
  lemma FullCycleReturns(t: nat)
    requires t < CycleLength
    ensures TimerAfter(t, CycleLength) == t
    ensures PhaseAt(TimerAfter(t, CycleLength)) == PhaseAt(t)
  {
    TimerAfterAddsModulo(t, CycleLength);
  }

  class BreathingSession {
    var isActive: bool
    var phase: Phase
    var timer: nat

    /** The timer stays in 0..15; while running the phase is the timer's,
        while stopped it is Wait. */
    ghost predicate Valid()
      reads this
    {
      && timer < CycleLength
      && (isActive ==> phase == PhaseAt(timer))
      && (!isActive ==> phase == Wait)
    }

    constructor ()
      ensures Valid() && !isActive && phase == Wait && timer == 0
    {
      isActive := false;
      phase := Wait;
      timer := 0;
    }

    /** The Start/Stop button flips `isActive`; the effect then starts over
        at timer 0 and Inhale, or stops at Wait keeping the timer. */
    method Toggle()
      requires Valid()
      modifies this
      ensures Valid() && isActive == !old(isActive)
      ensures isActive ==> timer == 0 && phase == Inhale
      ensures !isActive ==> timer == old(timer) && phase == Wait
    {
      isActive := !isActive;
      if isActive {
        timer := 0;
        phase := Inhale;
      } else {
        phase := Wait;
      }
    }

    /** One interval tick; the interval is cleared while stopped, so a tick
        then does nothing. */
    method Tick()
      requires Valid()
      modifies this`timer, this`phase
      ensures Valid()
      ensures isActive ==> timer == NextTimer(old(timer)) && phase == PhaseAt(timer)
      ensures !isActive ==> timer == old(timer) && phase == old(phase)
    {
      if isActive {
        var next := NextTimer(timer);
        if next < 4 {
          phase := Inhale;
        } else if next < 8 {
          phase := Hold;
        } else if next < 12 {
          phase := Exhale;
        } else {
          phase := Hold;
        }
        timer := next;
      }
    }
  }
}
