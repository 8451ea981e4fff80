/**
 * The anti-cheat gate in front of a waste scan: the lazy daily reset, then the
 * daily limit, the time cooldown and the location check, in that order.
 */
module AntiCheat {
  import opened Wrappers
  import opened Records

  // ANTI_CHEAT_CONFIG
  const MinScanInterval: int := 5 * 60 * 1000
  const MinDistance: real := 10.0
  const MaxScansPerDay: int := 100
  const MillisPerMinute: int := 60 * 1000

  /** Why a scan is refused, with the details the response reports. */
  datatype Rejection =
    | DailyLimitExceeded
    | CooldownActive(remainingTime: int)
    | LocationTooClose(distance: int)

  /** The outcome of a scan request for a user whose record exists. */
  datatype Decision = Accept(scansRemaining: int) | Reject(rejection: Rejection)

  /** JavaScript truthiness of a request coordinate: missing (`undefined`) and `0` are false. */
  predicate Truthy(coordinate: Option<real>) {
    coordinate.Some? && coordinate.value != 0.0
  }

  /** JavaScript truthiness of `lastScanTimestamp`: `null` and `0` read as "never scanned". */
  predicate HasScanned(lastScanTimestamp: Option<int>) {
    lastScanTimestamp.Some? && lastScanTimestamp.value != 0
  }

  /** The condition shared by the cooldown check and the location check. */
  predicate InCooldown(lastScanTimestamp: Option<int>, now: int) {
    HasScanned(lastScanTimestamp) && now - lastScanTimestamp.value < MinScanInterval
  }

  /** `Math.ceil((MIN_SCAN_INTERVAL - elapsed) / 1000 / 60)`: the minutes still to wait, rounded up. */
  function RemainingMinutes(elapsed: int): (minutes: int)
    requires elapsed < MinScanInterval
    ensures (minutes - 1) * MillisPerMinute < MinScanInterval - elapsed <= minutes * MillisPerMinute
    ensures minutes >= 1
    ensures elapsed >= 0 ==> minutes <= 5
  {
    (MinScanInterval - elapsed + MillisPerMinute - 1) / MillisPerMinute
  }

  /** `Math.round`: the nearest integer, halves rounded up. */
  function Round(x: real): (r: int)
    ensures r as real - 0.5 <= x < r as real + 0.5
  {
    (x + 0.5).Floor
  }

  /**
   * Step 1: if the stored day differs from `today`, `scansToday` restarts at 0
   * and `lastScanDate` becomes `today`; no other field changes.
   */
  function DailyReset(g: GameState, today: string): (r: GameState)
    ensures r.lastScanDate == Some(today)
    ensures r.scansToday == if g.lastScanDate == Some(today) then g.scansToday else 0
    ensures r.(scansToday := g.scansToday, lastScanDate := g.lastScanDate) == g
  {
    if g.lastScanDate != Some(today) then g.(scansToday := 0, lastScanDate := Some(today)) else g
  }

  /**
   * Steps 2 to 4 on the record after the daily reset: the first check that
   * fails gives the rejection. `distance` stands for calculateDistance, from
   * the stored location to the requested one.
   */
  function Gate(g: GameState, now: int, latitude: Option<real>, longitude: Option<real>,
                distance: (Location, Location) -> real): (r: Option<Rejection>)
    ensures r == Some(DailyLimitExceeded) <==> g.scansToday >= MaxScansPerDay
    ensures (r.Some? && r.value.CooldownActive?) <==>
              g.scansToday < MaxScansPerDay && InCooldown(g.lastScanTimestamp, now)
    ensures r.Some? && r.value.CooldownActive? ==>
              r.value.remainingTime == RemainingMinutes(now - g.lastScanTimestamp.value)
    ensures r.None? <==> g.scansToday < MaxScansPerDay && !InCooldown(g.lastScanTimestamp, now)
    ensures !(r.Some? && r.value.LocationTooClose?)
  {
    if g.scansToday >= MaxScansPerDay then
      Some(DailyLimitExceeded)
    else if InCooldown(g.lastScanTimestamp, now) then
      Some(CooldownActive(RemainingMinutes(now - g.lastScanTimestamp.value)))
    else if Truthy(latitude) && Truthy(longitude) && g.lastScanLocation.Some? then
      var d := distance(g.lastScanLocation.value, Location(latitude.value, longitude.value));
      if d < MinDistance && InCooldown(g.lastScanTimestamp, now) then
        Some(LocationTooClose(Round(d)))
      else
        None
    else
      None
  }
}
