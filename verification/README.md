# Binaural-beats frequency sweep — Dafny model

This project models the two pieces of logic inside the `BinauralBeats` page
component of the binaural-beats app:

- the **start handler's validation chain**: four parsed numbers (start
  frequency, end frequency, duration in minutes, interval in seconds) are
  checked in a fixed order, and the first failing check decides the status
  message. Only when every check passes is the sweep launched.
- the **sweep driver**: two oscillators sit 10 Hz apart (the beat frequency),
  each half a beat from a carrier. A periodic timer adds a constant step to the
  carrier. When the carrier reaches the end frequency, the timer stops both
  oscillators and clears itself. Otherwise it retunes both oscillators.

Modules:

- `Params` (`params.dfy`) holds the parsed form (`RawInput`, with `None`
  standing for a NaN produced by the float parser) and the validated
  `SweepParams`.
- `Validation` (`validation.dfy`) holds the ordered check chain `Validate`, the
  status messages, and `Admissible`, an unordered reference description of
  what is accepted.
- `Sweep` (`sweep.dfy`) holds the step computation, `Start`, one timer firing
  `Tick`, and `Run` for `n` firings. Oscillator calls and arming and clearing
  the timer are emitted as abstract `Effect`s.
- `SweepTermination` (`sweep.dfy`) holds the firing count
  ⌈(end − start) / step⌉ and the proof that the sweep completes after exactly
  that many firings.
- `Session` (`session.dfy`) holds the button handler as written (`StartSweep`).
  It also holds a page whose status follows the sweep (`Launch`, `FireTimer`);
  see Findings.

All arithmetic is on Dafny's exact `real`. Duration and interval are never
range-checked by the page. The model keeps it that way and makes the
consequence visible. A negative duration with a positive interval is accepted
and launches a sweep that never ends (`Session.NegativeDurationSweepNeverEnds`).
When duration and interval are both negative, the step is positive again and
the sweep completes like any climbing sweep (`SweepTermination.SweepCompletes`).
Nothing on the page requires duration > 0 or interval > 0; the model follows
the code.

## Model

| member | source | states |
|---|---|---|
| Validation.Validate | binaural-beats/src/App.js:62-83 | the chain accepts exactly the forms where every field is a number, 1 ≤ start ≤ 50, 20 ≤ end ≤ 1500 and start < end; when accepted, the sweep gets the four parsed numbers unchanged |
| Validation.MessagesDistinct | binaural-beats/src/App.js:62-80 | the four rejection messages are pairwise different, so the status line identifies which check failed |
| Validation.NotANumberFirst | binaural-beats/src/App.js:62-65 | a NaN in any field yields "Invalid input. Please enter numbers." whatever the other fields hold, before any range check |
| Validation.StartRangeBeforeEndRange | binaural-beats/src/App.js:67-70 | with all fields numbers, a start outside [1, 50] yields the start-range message whatever the end, duration and interval are |
| Validation.EndRangeBeforeOrder | binaural-beats/src/App.js:72-75 | with the start in range, an end outside [20, 1500] yields the end-range message, ahead of the ordering check |
| Validation.OrderCheckedLast | binaural-beats/src/App.js:77-80 | with both frequencies in range, the ordering message appears if and only if start ≥ end, and then end ≤ 50 |
| Validation.OrderRejectionNeedsLowEnd | binaural-beats/src/App.js:67-80 | an ordering rejection is only ever produced with start and end both in [20, 50] |
| Validation.DurationAndIntervalUnchecked | binaural-beats/src/App.js:59-80 | replacing duration and interval by any numbers, zero and negative included, never changes whether the form is accepted |
| Sweep.FreqStep | binaural-beats/src/App.js:12-14 | step × (duration·60 / interval) = end − start; with start < end the step is positive when duration and interval have the same sign, and negative when their signs differ |
| Sweep.Start | binaural-beats/src/App.js:16-39 | the sweep starts Running at the start frequency; the left and right oscillators are set 10 Hz apart, centred on the start frequency, then started, then the timer is armed |
| Sweep.RetuneCharacterised | binaural-beats/src/App.js:13-30 | a two-effect list is the retune of carrier c exactly when it is a left then a right frequency update, 10 Hz apart and centred on c |
| Sweep.Tick | binaural-beats/src/App.js:39-53 | a firing adds the fixed step; it completes exactly when the new carrier reaches the end, emitting stop-left, stop-right and clear-timer and no retune; otherwise it emits a 10 Hz-apart pair centred on the new carrier, which is below the end; a completed sweep does not react |
| Sweep.Run | binaural-beats/src/App.js:39-53 | n firings record one effect list per firing and never change the step or the end frequency |
| Sweep.RunFollowsClosedForm | binaural-beats/src/App.js:40-52 | while start + j·step stays below the end, firing i retunes to start + (i+1)·step; the first firing to reach the end shuts down; the carrier after n firings is start + n·step |
| Sweep.CompletedIsFinal | binaural-beats/src/App.js:44-47 | after completion, further firings change nothing and emit nothing |
| Sweep.NonClimbingNeverCompletes | binaural-beats/src/App.js:40-52 | with a step ≤ 0 and a carrier below the end, the sweep is still Running after any number of firings, each of which keeps the 10 Hz beat |
| SweepTermination.CeilIsFirstCrossing | binaural-beats/src/App.js:40-42 | with a positive step, ⌈(end − start)/step⌉ ≥ 1 is the first firing count at which start + n·step reaches the end |
| SweepTermination.SweepCompletes | binaural-beats/src/App.js:14-53 | with start < end and a non-zero duration and interval of the same sign, the sweep is Running for every n below ⌈(end − start)/step⌉ firings and Completed at exactly that count; the last firing shuts down; every earlier firing retunes 10 Hz apart around a carrier below the end |
| SweepTermination.TicksMatchTotalSteps | binaural-beats/src/App.js:12-14 | the firing count equals ⌈duration·60 / interval⌉, independent of the frequencies |
| SweepTermination.RetunesAscend | binaural-beats/src/App.js:40-42 | on a climbing sweep, up to completion, the carrier after i firings is strictly below the carrier after any later number of firings |
| SweepTermination.TenToTwentyInOneMinute | binaural-beats/src/App.js:12-52 | 10 → 20 Hz over 1 minute every 5 s: 12 periods, step 5/6 Hz, first retune to 95/6 and 35/6 Hz, completion on firing 12 |
| Session.StartSweep | binaural-beats/src/App.js:56-85 | a rejected form shows only its rejection message and launches nothing; an accepted form sets "Starting frequency sweep..." then "Frequency sweep completed." and launches the sweep with the parsed numbers; the last status is the completion message exactly when the form is accepted |
| Session.CompletionReportedAtLaunch | binaural-beats/src/App.js:82-84 | for any accepted form with a climbing step, the handler ends on the completion message while the sweep it launched is still Running with at least one firing to go |
| Session.CompletionReportedTwelveFiringsEarly | binaural-beats/src/App.js:82-84 | the 10 → 20 Hz, 1 min, 5 s form shows completion at once although twelve firings remain |
| Session.NegativeDurationSweepNeverEnds | binaural-beats/src/App.js:56-85 | the form 10, 20, −1 min, +5 s is accepted and launches a sweep that is still Running after any number of firings |
| Session.Launch | binaural-beats/src/App.js:82-83 | (corrected) launching shows exactly the starting message with a Running sweep, so the status is truthful |
| Session.FireTimer | binaural-beats/src/App.js:39-48 | (corrected) a firing advances the sweep like `Tick` and keeps "status says completed ⇔ sweep completed" |
| Session.FireTimerN | binaural-beats/src/App.js:39-48 | (corrected) n firings follow `Run` and keep the status truthful |
| Session.StatusHeldWhileRunning | binaural-beats/src/App.js:39-48 | (corrected) firings that leave the sweep Running leave the status unchanged |
| Session.CompletionReportedOnTime | binaural-beats/src/App.js:39-84 | (corrected) the status is the starting message for every count below ⌈(end − start)/step⌉ firings and the completion message at exactly that count |

## Left out

- React state hooks and JSX rendering (App.js:5-9, 87-143) are UI. The HTML
  `min`/`max` attributes are browser hints, not enforced.
- React batches the two status updates of one handler, so the page only ever
  displays the last one. `Session.StartSweep` records every message set and
  takes the last one as the one displayed.
- Web Audio plumbing is not modelled: audio context, gain nodes, `connect`,
  and audio timestamps. Oscillator tuning, start and stop are abstract
  `Effect`s.
- Audio-subsystem faults are not modelled; the source does not handle them.
- `setInterval`/`clearInterval` timing, including the `interval × 1000`
  millisecond period, is host scheduling. Each firing is one `Tick`.
- Float parsing of the text fields is the host's built-in; its result is the
  `RawInput` (`None` for NaN).
- IEEE-754 doubles are replaced by exact reals. With doubles, rounding in the
  repeated `currentFreq += freqStep` makes the firing count drift from
  ⌈(end − start)/step⌉ by a number of firings that grows with the length of
  the sweep. When the step is below half a unit in the last place of the
  carrier, the addition rounds back to the same carrier and the sweep never
  ends, whereas the model completes it.
- Sweep.FreqStep: requires a non-zero duration and interval. None of the
  double-precision cases this excludes is modelled:
  - A zero duration with a non-zero interval gives an infinite step. Its sign
    follows the signed zero of the quotient, so a duration typed as "-0"
    flips it. A +Infinity step completes on the first firing; a −Infinity
    step never completes.
  - A zero interval with a non-zero duration gives a zero step, which never
    completes.
  - A zero duration and a zero interval give 0/0, a NaN step. The carrier
    becomes NaN, the end check never succeeds, and each firing's frequency
    update is handed NaN, which the audio layer rejects.
- Sweep.Start: same non-zero requirement as `Sweep.FreqStep`.
- Session.Launch: same non-zero requirement as `Sweep.FreqStep`. The corrected
  page is defined only for sweeps the driver can start.
- SweepTermination.SweepCompletes: proved for every non-zero duration and
  interval of the same sign, which are exactly the climbing steps when
  start < end. Steps of zero or below are covered separately by
  `Sweep.NonClimbingNeverCompletes`. Zero duration or interval is left out,
  as for `Sweep.FreqStep`.
- Validating the same form twice gives the same result, because `Validate`
  is a pure function. No lemma is stated for it.

## Findings

| source | as written | input that shows it | evidently intended | confidence | as-written member | corrected member |
|---|---|---|---|---|---|---|
| binaural-beats/src/App.js:82-84 | "Frequency sweep completed." is set right after the timer-driven sweep is launched | start 10, end 20, duration 1, interval 5: completion is shown while 12 firings remain | the completion message is set by the firing that stops the oscillators | medium; not executed | Session.CompletionReportedTwelveFiringsEarly | Session.CompletionReportedOnTime |
