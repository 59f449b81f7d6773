/** The validation chain run when the "Start Sweep" button is pressed: four
    checks in a fixed order, the first failing one deciding the status message. */
module Validation {
  import opened Params

  /** Why a form was refused, one constructor per check, in checking order. */
  datatype Rejection = NotANumber | StartOutOfRange | EndOutOfRange | StartNotBelowEnd

  datatype Outcome = Rejected(reason: Rejection) | Accepted(params: SweepParams)

  const MIN_START_HZ: real := 1.0
  const MAX_START_HZ: real := 50.0
  const MIN_END_HZ: real := 20.0
  const MAX_END_HZ: real := 1500.0

  /** The status line shown for each rejection. */
  function Message(reason: Rejection): string
  {
    match reason
    case NotANumber => "Invalid input. Please enter numbers."
    case StartOutOfRange => "Start frequency must be between 1 Hz and 50 Hz."
    case EndOutOfRange => "End frequency must be between 20 Hz and 1500 Hz."
    case StartNotBelowEnd => "Start frequency must be less than end frequency."
  }

  /** Reference description of the forms the page lets through, stated as one
      conjunction with no ordering: every field a number, both frequencies in
      their bands, start strictly below end. Duration and interval appear only
      as "is a number". */
  predicate Admissible(input: RawInput)
  {
    && AllNumbers(input)
    && MIN_START_HZ <= input.startFreq.value <= MAX_START_HZ
    && MIN_END_HZ <= input.endFreq.value <= MAX_END_HZ
    && input.startFreq.value < input.endFreq.value
  }

  /** The ordered check chain of the page's start handler. */
  function Validate(input: RawInput): (r: Outcome)
    ensures r.Accepted? <==> Admissible(input)
    ensures r.Accepted? ==>
      r.params == SweepParams(input.startFreq.value, input.endFreq.value,
                              input.durationMinutes.value, input.intervalSeconds.value)
  {
    if !AllNumbers(input) then
      Rejected(NotANumber)
    else
      var start := input.startFreq.value;
      var end := input.endFreq.value;
      if start < MIN_START_HZ || start > MAX_START_HZ then
        Rejected(StartOutOfRange)
      else if end < MIN_END_HZ || end > MAX_END_HZ then
        Rejected(EndOutOfRange)
      else if start >= end then
        Rejected(StartNotBelowEnd)
      else
        Accepted(SweepParams(start, end, input.durationMinutes.value, input.intervalSeconds.value))
  }

  /** Each status message names exactly one rejection. */
  lemma MessagesDistinct(a: Rejection, b: Rejection)
    ensures Message(a) == Message(b) <==> a == b
  {
  }

  /** A NaN in any of the four fields is reported before any range check,
      whatever the other fields hold. */
  lemma NotANumberFirst(input: RawInput)
    requires !AllNumbers(input)
    ensures Validate(input) == Rejected(NotANumber)
    ensures Message(Validate(input).reason) == "Invalid input. Please enter numbers."
  {
  }

  /** A start frequency outside [1, 50] is reported whatever the end
      frequency, duration and interval are. */
  lemma StartRangeBeforeEndRange(input: RawInput)
    requires AllNumbers(input)
    requires input.startFreq.value < 1.0 || input.startFreq.value > 50.0
    ensures Validate(input) == Rejected(StartOutOfRange)
    ensures Message(Validate(input).reason) == "Start frequency must be between 1 Hz and 50 Hz."
  {
  }

  /** With the start frequency in range, an end frequency outside [20, 1500]
      is reported, before the ordering check. */
  lemma EndRangeBeforeOrder(input: RawInput)
    requires AllNumbers(input)
    requires 1.0 <= input.startFreq.value <= 50.0
    requires input.endFreq.value < 20.0 || input.endFreq.value > 1500.0
    ensures Validate(input) == Rejected(EndOutOfRange)
    ensures Message(Validate(input).reason) == "End frequency must be between 20 Hz and 1500 Hz."
  {
  }

  /** With both frequencies in range, start >= end is reported; given the
      bands, that can only happen when the end frequency is at most 50 Hz. */
  lemma OrderCheckedLast(input: RawInput)
    requires AllNumbers(input)
    requires 1.0 <= input.startFreq.value <= 50.0
    requires 20.0 <= input.endFreq.value <= 1500.0
    ensures Validate(input) == Rejected(StartNotBelowEnd) <==> input.startFreq.value >= input.endFreq.value
    ensures Validate(input) == Rejected(StartNotBelowEnd) ==> input.endFreq.value <= 50.0
    ensures Validate(input) == Rejected(StartNotBelowEnd) ==>
      Message(Validate(input).reason) == "Start frequency must be less than end frequency."
  {
  }

  /** An ordering rejection is only ever seen with an end frequency in [20, 50]. */
  lemma OrderRejectionNeedsLowEnd(input: RawInput)
    requires Validate(input) == Rejected(StartNotBelowEnd)
    ensures AllNumbers(input) && 20.0 <= input.endFreq.value <= 50.0
    ensures 20.0 <= input.startFreq.value <= 50.0
  {
  }

  /** Duration and interval are never range-checked: replacing them by any
      numbers at all, zero and negative ones included, leaves the verdict
      unchanged. */
  lemma DurationAndIntervalUnchecked(input: RawInput, duration: real, interval: real)
    requires input.durationMinutes.Some? && input.intervalSeconds.Some?
    ensures Validate(input.(durationMinutes := Some(duration), intervalSeconds := Some(interval))).Accepted?
        == Validate(input).Accepted?
  {
  }
}
