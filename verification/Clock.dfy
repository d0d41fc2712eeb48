/** The clock of the bandwidth limiter: `timeb` as filled by `ftime`. */
module Clock {

  datatype TimebRaw = Timeb(time: int, millitm: int)

  /** `ftime` keeps the millisecond part below one second. */
  type Timeb = t: TimebRaw | 0 <= t.millitm < 1000 witness Timeb(0, 0)

  /** Seconds for which a statistic record stays valid. */
  const VALID_PERIOD := 1

  function Ms(t: Timeb): int
  {
    1000 * t.time + t.millitm
  }

  function OfMs(ms: nat): Timeb
  {
    Timeb(ms / 1000, ms % 1000)
  }

  /** The limiter's own test: seconds first, milliseconds only inside the same second. */
  predicate Expired(t: Timeb, now: Timeb)
  {
    var since := Timeb(now.time - VALID_PERIOD, now.millitm);
    t.time < since.time || (t.time == since.time && since.millitm > t.millitm)
  }

  /** The two-part comparison is the comparison of instants, and `OfMs` loses nothing. */
  lemma ExpiredIsOlderThanThePeriod(t: Timeb, now: Timeb)
    ensures Expired(t, now) <==> Ms(t) < Ms(now) - 1000 * VALID_PERIOD
  {
  }

  lemma MsOfMs(ms: nat)
    ensures Ms(OfMs(ms)) == ms
  {
  }
}
