/**
 * Time as a JavaScript `Date` holds it: whole milliseconds since the Unix epoch.
 * The back end compares calendar dates in UTC (`toISOString().split("T")[0]`);
 * the browser compares them in its local time zone (`toDateString()`), modelled
 * here as a fixed offset from UTC.
 */
module Clock {

  type Instant = int

  const MsPerDay: int := 86_400_000

  /** Number of the UTC calendar day holding `t`; two instants print the same
      `YYYY-MM-DD` under `toISOString` exactly when these numbers agree. */
  function UtcDay(t: Instant): int {
    t / MsPerDay
  }

  /** Number of the local calendar day holding `t`, for a zone `offset`
      milliseconds ahead of UTC. */
  function LocalDay(t: Instant, offset: int): int {
    (t + offset) / MsPerDay
  }
}
