/**
 * The values a slider can report: it is configured with `min`, `max` and
 * `step`, and every thumb sits on `min + k * step` within `[min, max]`.
 * Fractional steps are modelled in scaled integer units (half points, half
 * kilometres), where each position is exact.
 */
module Slider {

  datatype Track = Track(min: int, max: int, step: nat)

  /** `v` is a position the slider can report. */
  predicate OnTrack(t: Track, v: int)
  {
    t.step > 0 && t.min <= v <= t.max && (v - t.min) % t.step == 0
  }

  /** Every thumb of a slider value (`number[]`) is on the track. */
  predicate AllOnTrack(t: Track, vs: seq<int>)
  {
    |vs| >= 1 && forall i :: 0 <= i < |vs| ==> OnTrack(t, vs[i])
  }

  /** The number of positions from `min` to `max`. */
  function Positions(t: Track): (n: int)
    requires t.step > 0
  {
    (t.max - t.min) / t.step + 1
  }
}
