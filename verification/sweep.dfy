/** The frequency sweep started once the form is accepted: two oscillators a
    fixed beat apart, retuned by a periodic timer that adds a constant step to
    the carrier frequency until it reaches the end frequency. Audio calls and
    the timer are abstract effects; one firing of the timer is one `Tick`. */
module Sweep {
  import opened Params

  /** The fixed beat frequency between the two oscillators, in Hz. */
  const BEAT_FREQUENCY: real := 10.0

  /** Each oscillator sits half a beat away from the carrier. */
  const HALF_BEAT: real := BEAT_FREQUENCY / 2.0

  datatype Oscillator = Left | Right

  /** What the sweep asks of the audio layer and of the timer. */
  datatype Effect =
    | SetFrequency(osc: Oscillator, hz: real)
    | StartOscillator(osc: Oscillator)
    | StopOscillator(osc: Oscillator)
    | StartTimer
    | ClearTimer

  datatype Phase = Running | Completed

  /** The state captured by the timer callback: the carrier frequency, the
      step fixed at start, and the end frequency it stops at. */
  datatype SweepState = SweepState(current: real, step: real, end: real, phase: Phase)

  /** A new state together with the effects emitted on the way to it. */
  datatype Firing = Firing(next: SweepState, effects: seq<Effect>)

  /** The two frequency updates for a carrier `current`. */
  function Retune(current: real): seq<Effect>
  {
    [SetFrequency(Left, current + HALF_BEAT), SetFrequency(Right, current - HALF_BEAT)]
  }

  /** Both oscillators stopped, then the timer cleared. */
  const Shutdown: seq<Effect> := [StopOscillator(Left), StopOscillator(Right), ClearTimer]

  /** The effects open with a left and then a right frequency update whose
      difference is the beat frequency. */
  predicate KeepsBeat(effects: seq<Effect>)
  {
    && |effects| >= 2
    && effects[0].SetFrequency? && effects[0].osc == Left
    && effects[1].SetFrequency? && effects[1].osc == Right
    && effects[0].hz - effects[1].hz == BEAT_FREQUENCY
  }

  /** The two opening frequency updates are centred on `carrier`. */
  predicate CentredOn(effects: seq<Effect>, carrier: real)
    requires KeepsBeat(effects)
  {
    (effects[0].hz + effects[1].hz) / 2.0 == carrier
  }

  /** A retune of carrier `c` keeps the beat and is centred on `c`; those two
      facts pin it down. */
  lemma RetuneCharacterised(c: real, effects: seq<Effect>)
    requires |effects| == 2
    ensures (KeepsBeat(effects) && CentredOn(effects, c)) <==> effects == Retune(c)
  {
  }

  /** Number of timer periods in the sweep: duration in seconds over interval. */
  function TotalSteps(p: SweepParams): real
    requires p.intervalSeconds != 0.0
  {
    p.durationMinutes * 60.0 / p.intervalSeconds
  }

  /** The carrier increment computed once at start. The real division needs a
      non-zero duration and interval, which the form itself never checks. */
  function FreqStep(p: SweepParams): (step: real)
    requires p.durationMinutes != 0.0 && p.intervalSeconds != 0.0
    ensures step * TotalSteps(p) == p.endFreq - p.startFreq
    ensures p.startFreq < p.endFreq && (p.durationMinutes > 0.0 <==> p.intervalSeconds > 0.0) ==> step > 0.0
    ensures p.startFreq < p.endFreq && (p.durationMinutes > 0.0 <==> p.intervalSeconds < 0.0) ==> step < 0.0
  {
    (p.endFreq - p.startFreq) / TotalSteps(p)
  }

  /** Closed form of the carrier after `n` ticks from `start`. */
  function FreqAfter(start: real, step: real, n: nat): real
  {
    start + n as real * step
  }

  /** Sweep start: both oscillators tuned around the start frequency, then
      started, then the periodic timer armed; the state is Running with the
      step fixed for good. */
  function Start(p: SweepParams): (r: Firing)
    requires p.durationMinutes != 0.0 && p.intervalSeconds != 0.0
    ensures r.next.phase == Running
    ensures r.next.current == p.startFreq && r.next.end == p.endFreq
    ensures r.next.step * TotalSteps(p) == p.endFreq - p.startFreq
    ensures KeepsBeat(r.effects) && CentredOn(r.effects, p.startFreq)
    ensures r.effects[2..] == [StartOscillator(Left), StartOscillator(Right), StartTimer]
  {
    Firing(SweepState(p.startFreq, FreqStep(p), p.endFreq, Running),
           Retune(p.startFreq) + [StartOscillator(Left), StartOscillator(Right), StartTimer])
  }

  /** One firing of the timer. A running sweep adds the step; reaching or
      passing the end stops both oscillators and clears the timer without a
      final retune, otherwise both oscillators are retuned. A completed sweep
      has no timer left, so a further firing changes nothing. */
  function Tick(s: SweepState): (r: Firing)
    ensures r.next.step == s.step && r.next.end == s.end
    ensures s.phase == Completed ==> r == Firing(s, [])
    ensures s.phase == Running ==> r.next.current == s.current + s.step
    ensures s.phase == Running ==> (r.next.phase == Completed <==> s.current + s.step >= s.end)
    ensures r.next.phase == Running ==>
      KeepsBeat(r.effects) && CentredOn(r.effects, r.next.current) && |r.effects| == 2 && r.next.current < s.end
    ensures s.phase == Running && r.next.phase == Completed ==> r.effects == Shutdown
  {
    match s.phase
    case Completed => Firing(s, [])
    case Running =>
      var current := s.current + s.step;
      if current >= s.end then
        Firing(s.(current := current, phase := Completed), Shutdown)
      else
        Firing(s.(current := current), Retune(current))
  }

  /** The state after `n` firings and the effects of each firing, in order. */
  datatype Trace = Trace(last: SweepState, firings: seq<seq<Effect>>)

  /** `n` consecutive firings of the timer from `s`. */
  function Run(s: SweepState, n: nat): (t: Trace)
    ensures |t.firings| == n
    ensures t.last.step == s.step && t.last.end == s.end
    ensures s.phase == Completed ==> t.last == s
    decreases n
  {
    if n == 0 then
      Trace(s, [])
    else
      var before := Run(s, n - 1);
      var f := Tick(before.last);
      Trace(f.next, before.firings + [f.effects])
  }

  lemma StepShift(c: real, step: real, n: nat)
    ensures FreqAfter(c, step, n) + step == FreqAfter(c, step, n + 1)
  {
  }

  /** While the closed-form carrier stays below the end, each firing `i`
      retunes to the carrier after `i + 1` steps; the first firing whose
      carrier reaches the end shuts down. */
  lemma {:induction false} RunFollowsClosedForm(s: SweepState, n: nat)
    requires s.phase == Running
    requires forall j: nat :: 1 <= j < n ==> FreqAfter(s.current, s.step, j) < s.end
    ensures Run(s, n).last.current == FreqAfter(s.current, s.step, n)
    ensures Run(s, n).last.phase == Running <==> n == 0 || FreqAfter(s.current, s.step, n) < s.end
    ensures forall i :: 0 <= i < n - 1 ==> Run(s, n).firings[i] == Retune(FreqAfter(s.current, s.step, i + 1))
    ensures n >= 1 ==>
              Run(s, n).firings[n - 1] ==
                (if FreqAfter(s.current, s.step, n) < s.end then Retune(FreqAfter(s.current, s.step, n)) else Shutdown)
  {
    if n > 0 {
      RunFollowsClosedForm(s, n - 1);
      StepShift(s.current, s.step, n - 1);
      var before := Run(s, n - 1);
      assert before.last.phase == Running;
      if n >= 2 {
        assert before.firings[n - 2] == Retune(FreqAfter(s.current, s.step, n - 1));
      }
    }
  }

  /** Once completed, the sweep stays put and further firings emit nothing:
      the timer has been cleared. */
  lemma {:induction false} CompletedIsFinal(s: SweepState, n: nat)
    requires s.phase == Completed
    ensures Run(s, n).last == s
    ensures forall i :: 0 <= i < n ==> Run(s, n).firings[i] == []
  {
    if n > 0 {
      CompletedIsFinal(s, n - 1);
    }
  }

  /** A step that does not climb never reaches an end above the carrier:
      the timer keeps firing and retuning forever. */
  lemma NonClimbingNeverCompletes(s: SweepState, n: nat)
    requires s.phase == Running && s.step <= 0.0 && s.current < s.end
    ensures Run(s, n).last.phase == Running
    ensures forall i :: 0 <= i < n ==> KeepsBeat(Run(s, n).firings[i])
  {
    forall j: nat | 1 <= j
      ensures FreqAfter(s.current, s.step, j) < s.end
    {
      assert j as real * s.step <= 0.0;
    }
    RunFollowsClosedForm(s, n);
  }

}

module SweepTermination {
  import opened Params
  import opened Sweep

  /** Least integer not below `x`. */
  function Ceil(x: real): (n: int)
    ensures x <= n as real < x + 1.0
  {
    if x.Floor as real == x then x.Floor else x.Floor + 1
  }

  /** Parameters for which the sweep climbs: start below end, and a non-zero
      duration and interval of the same sign, so that the step is positive. */
  predicate Climbing(p: SweepParams)
  {
    && p.startFreq < p.endFreq
    && p.durationMinutes != 0.0 && p.intervalSeconds != 0.0
    && (p.durationMinutes > 0.0 <==> p.intervalSeconds > 0.0)
  }

  /** ⌈(end − start) / step⌉: the number of timer firings the sweep takes. */
  function TicksToComplete(p: SweepParams): int
    requires Climbing(p)
  {
    Ceil((p.endFreq - p.startFreq) / FreqStep(p))
  }

  lemma ScaleBelow(a: real, b: real, step: real)
    requires step > 0.0 && a < b
    ensures a * step < b * step
  {
  }

  /** Before firing number ⌈(end − start) / step⌉ the carrier stays below the
      end; at that firing it reaches it. */
  lemma CeilIsFirstCrossing(start: real, end: real, step: real, j: nat)
    requires start < end && step > 0.0
    ensures Ceil((end - start) / step) >= 1
    ensures j < Ceil((end - start) / step) ==> FreqAfter(start, step, j) < end
    ensures j == Ceil((end - start) / step) ==> FreqAfter(start, step, j) >= end
  {
    var x := (end - start) / step;
    var k := Ceil(x);
    assert x * step == end - start;
    if j < k {
      ScaleBelow(j as real, x, step);
    } else if j == k {
      if x < k as real {
        ScaleBelow(x, k as real, step);
      }
    }
  }

  /** With start < end and a duration and interval of the same sign the sweep
      runs for exactly ⌈(end − start) / step⌉ firings (at least one): it is
      Running after every smaller number of firings, each of which retuned
      both oscillators a beat apart around a carrier below the end, and the
      last firing stops both oscillators and clears the timer. */
  lemma SweepCompletes(p: SweepParams)
    requires Climbing(p)
    ensures TicksToComplete(p) >= 1
    ensures forall n: nat :: n < TicksToComplete(p) ==> Run(Start(p).next, n).last.phase == Running
    ensures Run(Start(p).next, TicksToComplete(p)).last.phase == Completed
    ensures Run(Start(p).next, TicksToComplete(p)).firings[TicksToComplete(p) - 1] == Shutdown
    ensures forall i :: 0 <= i < TicksToComplete(p) - 1 ==>
              && KeepsBeat(Run(Start(p).next, TicksToComplete(p)).firings[i])
              && CentredOn(Run(Start(p).next, TicksToComplete(p)).firings[i], FreqAfter(p.startFreq, FreqStep(p), i + 1))
              && FreqAfter(p.startFreq, FreqStep(p), i + 1) < p.endFreq
  {
    var s0 := Start(p).next;
    var step := FreqStep(p);
    var k := TicksToComplete(p);
    CeilIsFirstCrossing(p.startFreq, p.endFreq, step, 0);
    forall j: nat | 1 <= j < k
      ensures FreqAfter(p.startFreq, step, j) < p.endFreq
    {
      CeilIsFirstCrossing(p.startFreq, p.endFreq, step, j);
    }
    forall n: nat | n < k
      ensures Run(s0, n).last.phase == Running
    {
      RunFollowsClosedForm(s0, n);
    }
    RunFollowsClosedForm(s0, k);
    CeilIsFirstCrossing(p.startFreq, p.endFreq, step, k);
  }

  /** The firing count depends only on duration and interval: it is
      ⌈duration·60 / interval⌉, the number of timer periods in the duration. */
  lemma TicksMatchTotalSteps(p: SweepParams)
    requires Climbing(p)
    ensures TicksToComplete(p) == Ceil(TotalSteps(p))
  {
    var t := TotalSteps(p);
    assert t > 0.0;
    assert (p.endFreq - p.startFreq) / FreqStep(p) == t;
  }

  /** Up to completion, the carrier the sweep reaches climbs strictly from
      one firing to the next. */
  lemma RetunesAscend(p: SweepParams, i: nat, j: nat)
    requires Climbing(p) && i < j <= TicksToComplete(p)
    ensures Run(Start(p).next, i).last.current < Run(Start(p).next, j).last.current
  {
    var s0 := Start(p).next;
    var step := FreqStep(p);
    SweepCompletes(p);
    forall k: nat | 1 <= k < j
      ensures FreqAfter(p.startFreq, step, k) < p.endFreq
    {
      CeilIsFirstCrossing(p.startFreq, p.endFreq, step, k);
    }
    RunFollowsClosedForm(s0, i);
    RunFollowsClosedForm(s0, j);
    ScaleBelow(i as real, j as real, step);
  }

  /** 10 Hz to 20 Hz over one minute in 5-second steps: twelve periods, a
      step of 5/6 Hz, a first retune to 95/6 and 35/6 Hz around 65/6 Hz, and
      completion on the twelfth firing. */
  lemma TenToTwentyInOneMinute()
    ensures var p := SweepParams(10.0, 20.0, 1.0, 5.0);
      && TotalSteps(p) == 12.0
      && FreqStep(p) == 5.0 / 6.0
      && Tick(Start(p).next).next.current == 65.0 / 6.0
      && Tick(Start(p).next).effects == [SetFrequency(Left, 95.0 / 6.0), SetFrequency(Right, 35.0 / 6.0)]
      && TicksToComplete(p) == 12
  {
    var p := SweepParams(10.0, 20.0, 1.0, 5.0);
    TicksMatchTotalSteps(p);
  }
}
