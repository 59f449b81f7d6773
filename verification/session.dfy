/** The "Start Sweep" button handler: validation, then the status messages and
    the launch of the sweep. The handler sets its completion message right
    after launching the timer-driven sweep, so it reports completion while the
    sweep is still running; `Press`/`StartSweep` model that as written, and
    `Page`/`FireTimer` model a status that follows the sweep instead. */
module Session {
  import opened Params
  import opened Validation
  import opened Sweep
  import opened SweepTermination

  const STARTING: string := "Starting frequency sweep..."
  const COMPLETED: string := "Frequency sweep completed."

  function Last(statuses: seq<string>): string
    requires |statuses| > 0
  {
    statuses[|statuses| - 1]
  }

  /** One press of the button as written: every status message set, in
      order (the page shows the last), and the parameters the sweep was
      launched with, if it was launched. */
  datatype Press = Press(statuses: seq<string>, launched: Option<SweepParams>)

  function StartSweep(input: RawInput): (r: Press)
    ensures |r.statuses| >= 1
    ensures r.launched.Some? <==> Admissible(input)
    ensures r.launched.Some? ==>
      r.launched.value == SweepParams(input.startFreq.value, input.endFreq.value,
                                      input.durationMinutes.value, input.intervalSeconds.value)
    ensures !Admissible(input) ==> r.statuses == [Message(Validate(input).reason)]
    ensures Admissible(input) ==> r.statuses == [STARTING, COMPLETED]
    ensures Last(r.statuses) == COMPLETED <==> Admissible(input)
  {
    match Validate(input)
    case Rejected(reason) => Press([Message(reason)], None)
    case Accepted(p) => Press([STARTING, COMPLETED], Some(p))
  }

  /** As written, every launch of a climbing sweep ends the handler with the
      completion message while the sweep it just started is still Running
      and has at least one firing to go. */
  lemma CompletionReportedAtLaunch(input: RawInput)
    requires Admissible(input)
    requires Climbing(SweepParams(input.startFreq.value, input.endFreq.value,
                                  input.durationMinutes.value, input.intervalSeconds.value))
    ensures Last(StartSweep(input).statuses) == COMPLETED
    ensures Start(StartSweep(input).launched.value).next.phase == Running
    ensures TicksToComplete(StartSweep(input).launched.value) >= 1
  {
    SweepCompletes(StartSweep(input).launched.value);
  }

  /** The form 10 Hz → 20 Hz, 1 minute, 5 seconds shows "Frequency sweep
      completed." at once, although the sweep needs twelve more firings. */
  lemma CompletionReportedTwelveFiringsEarly()
    ensures var input := RawInput(Some(10.0), Some(20.0), Some(1.0), Some(5.0));
      && Last(StartSweep(input).statuses) == COMPLETED
      && Start(StartSweep(input).launched.value).next.phase == Running
      && TicksToComplete(StartSweep(input).launched.value) == 12
  {
    TenToTwentyInOneMinute();
  }

  /** Since duration and interval are never checked, a negative duration with
      a positive interval is accepted and launches a sweep that steps downward
      and never completes. */
  lemma NegativeDurationSweepNeverEnds(n: nat)
    ensures var input := RawInput(Some(10.0), Some(20.0), Some(-1.0), Some(5.0));
      && StartSweep(input).launched == Some(SweepParams(10.0, 20.0, -1.0, 5.0))
      && Run(Start(SweepParams(10.0, 20.0, -1.0, 5.0)).next, n).last.phase == Running
  {
    var p := SweepParams(10.0, 20.0, -1.0, 5.0);
    NonClimbingNeverCompletes(Start(p).next, n);
  }

  /** The page with a status that follows the sweep. */
  datatype Page = Page(status: string, sweep: SweepState)

  /** The status claims completion exactly when the sweep has completed. */
  predicate StatusTruthful(pg: Page)
  {
    pg.status == COMPLETED <==> pg.sweep.phase == Completed
  }

  /** Launch with the starting message; completion is left to the timer. */
  function Launch(p: SweepParams): (pg: Page)
    requires p.durationMinutes != 0.0 && p.intervalSeconds != 0.0
    ensures pg.sweep == Start(p).next
    ensures pg.status == STARTING
    ensures StatusTruthful(pg)
  {
    Page(STARTING, Start(p).next)
  }

  /** One timer firing; the firing that completes the sweep also sets the
      completion message. */
  function FireTimer(pg: Page): (r: Page)
    ensures r.sweep == Tick(pg.sweep).next
    ensures StatusTruthful(pg) ==> StatusTruthful(r)
  {
    var next := Tick(pg.sweep).next;
    Page(if next.phase == Completed then COMPLETED else pg.status, next)
  }

  /** `n` timer firings of the page. */
  function FireTimerN(pg: Page, n: nat): (r: Page)
    ensures r.sweep == Run(pg.sweep, n).last
    ensures StatusTruthful(pg) ==> StatusTruthful(r)
    decreases n
  {
    if n == 0 then pg else FireTimer(FireTimerN(pg, n - 1))
  }

  /** Firings that leave the sweep Running leave the status as it was. */
  lemma {:induction false} StatusHeldWhileRunning(pg: Page, n: nat)
    requires Run(pg.sweep, n).last.phase == Running
    ensures FireTimerN(pg, n).status == pg.status
  {
    if n > 0 {
      StatusHeldWhileRunning(pg, n - 1);
    }
  }

  /** With the status following the sweep, a climbing sweep shows the
      starting message until firing ⌈(end − start) / step⌉ and the
      completion message from that firing on. */
  lemma CompletionReportedOnTime(p: SweepParams)
    requires Climbing(p)
    ensures forall n: nat :: n < TicksToComplete(p) ==> FireTimerN(Launch(p), n).status == STARTING
    ensures FireTimerN(Launch(p), TicksToComplete(p)).status == COMPLETED
  {
    SweepCompletes(p);
    forall n: nat | n < TicksToComplete(p)
      ensures FireTimerN(Launch(p), n).status == STARTING
    {
      StatusHeldWhileRunning(Launch(p), n);
    }
  }
}
