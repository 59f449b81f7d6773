/** Values that flow from the form of the binaural-beats page into its sweep.
    Every numeric field is read with the host's float parser; a field that does
    not parse becomes NaN, which this model writes as `None`. */
module Params {

  /** A parsed form field: `Some(x)` for a number, `None` for NaN. */
  datatype Option<+T> = None | Some(value: T)

  /** The four fields of the form, already parsed. */
  datatype RawInput = RawInput(
    startFreq: Option<real>,
    endFreq: Option<real>,
    durationMinutes: Option<real>,
    intervalSeconds: Option<real>)

  /** The four numbers handed to the sweep once validation has passed. */
  datatype SweepParams = SweepParams(
    startFreq: real,
    endFreq: real,
    durationMinutes: real,
    intervalSeconds: real)

  /** True when no field is NaN. */
  predicate AllNumbers(input: RawInput)
  {
    && input.startFreq.Some?
    && input.endFreq.Some?
    && input.durationMinutes.Some?
    && input.intervalSeconds.Some?
  }
}
