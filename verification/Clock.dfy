/** Logical time: `Instant` and `Duration` as nanoseconds. */
module Clock {

  type Time = int

  /** `saturating_duration_since`: a clock that ran back reads as no time at all. */
  function SaturatingSince(now: Time, earlier: Time): Time {
    if now > earlier then now - earlier else 0
  }
}
