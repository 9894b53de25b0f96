/** Instants, optional values and the callback correlation record (rp/store/store.go). */
module Correlations {

  datatype Option<+T> = None | Some(value: T)

  type Byte = x: int | 0 <= x < 256

  /** An instant, in nanoseconds since Go's zero time (1 January of year 1, UTC):
      `IsZero` is equality with 0, `Before` is `<` and `Add` is `+`. */
  type Time = int

  const SECOND: int := 1_000_000_000
  const MINUTE: int := 60 * SECOND

  /** Whole seconds from Go's zero time to the Unix epoch. */
  const EPOCH_SECONDS: int := 62_135_596_800

  /** `time.Time.Unix`: whole seconds since the epoch, rounded down. */
  function Unix(t: Time): int {
    t / SECOND - EPOCH_SECONDS
  }

  /** `unixToTime`: anything at or before the epoch becomes the zero time. */
  function UnixToTime(ts: int): Time {
    if ts <= 0 then 0 else (ts + EPOCH_SECONDS) * SECOND
  }

  datatype Correlation = Correlation(
    nonce: string,
    codeVerifier: string,
    createdAt: Time,
    expiry: Time,
    issuer: string,
    clientID: string,
    clientSecret: string,
    requestURI: string,
    usedPAR: bool,
    resources: seq<string>,
    userInfoTokenTransport: string)

  const ZERO_CORRELATION := Correlation("", "", 0, 0, "", "", "", "", false, [], "")

  /** `SaveCorrelation` stamps a correlation that carries no creation time. */
  function Stamped(c: Correlation, now: Time): Correlation {
    if c.createdAt == 0 then c.(createdAt := now) else c
  }

  /** Both deadlines of a correlation with a creation time lie at or after `now`. */
  predicate Alive(c: Correlation, ttl: int, now: Time) {
    now <= c.createdAt + ttl && (c.expiry != 0 ==> now <= c.expiry)
  }

  /** The epoch is 1 January 1970: that many days, by the Gregorian leap years, after day one of year 1. */
  lemma EpochIs()
    ensures EPOCH_SECONDS == (1969 * 365 + 1969 / 4 - 1969 / 100 + 1969 / 400) * 24 * 60 * 60
    ensures SECOND == 1_000_000_000 && MINUTE == 60 * SECOND
  {}

  /** `Unix` counts whole seconds, and `UnixToTime` takes them back to the start of the second. */
  lemma UnixRoundTrip(t: Time, ts: int)
    ensures (Unix(t) + EPOCH_SECONDS) * SECOND <= t < (Unix(t) + EPOCH_SECONDS + 1) * SECOND
    ensures ts > 0 ==> Unix(UnixToTime(ts)) == ts
    ensures ts <= 0 ==> UnixToTime(ts) == 0
    ensures Unix(t) > 0 ==> UnixToTime(Unix(t)) <= t < UnixToTime(Unix(t)) + SECOND
  {}

  /** A creation time is stamped on a correlation without one, and on no other. */
  lemma StampedOnce(c: Correlation, now: Time, later: Time)
    requires now != 0
    ensures Stamped(c, now).createdAt != 0 && Stamped(Stamped(c, now), later) == Stamped(c, now)
    ensures Stamped(c, now) == c.(createdAt := Stamped(c, now).createdAt)
    ensures c.createdAt == 0 ==> Stamped(c, now).createdAt == now
  {}
}
